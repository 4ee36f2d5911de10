/** The SSH host pool of src/symphony/ssh/worker.py, and the tasks that wait on its condition. */
module HostPools {
  import opened Options

  type Spec = string

  datatype HostState = HostState(inUse: nat, reachable: bool, lastError: Option<string>)

  /** `order` is configuration order; `cap` is None when the configuration sets no positive cap. */
  datatype Pool = Pool(order: seq<Spec>, states: map<Spec, HostState>, cap: Option<nat>)
  {
    ghost predicate Valid()
    {
      && (forall i, j :: 0 <= i < j < |order| ==> order[i] != order[j])
      && (forall h :: h in order <==> h in states)
    }

    predicate HasCapacity(h: Spec)
    {
      h in states && states[h].reachable && (cap.None? || states[h].inUse < cap.value)
    }

    function Used(h: Spec): nat { if h in states then states[h].inUse else 0 }
  }

  /** Duplicate entries are dropped: they must not double a host's capacity. */
  function Add(p: Pool, h: Spec): Pool
  {
    if h in p.states then p else p.(order := p.order + [h], states := p.states[h := HostState(0, true, None)])
  }

  function AddAll(p: Pool, hosts: seq<Spec>): Pool
    decreases |hosts|
  {
    if hosts == [] then p else AddAll(Add(p, hosts[0]), hosts[1..])
  }

  function NewPool(hosts: seq<Spec>, cap: Option<int>): Pool
  {
    AddAll(Pool([], map[], if cap.Some? && cap.value > 0 then Some(cap.value) else None), hosts)
  }

  function LeastLoaded(p: Pool, hosts: seq<Spec>): Option<Spec>
  {
    if hosts == [] then None
    else
      var rest := LeastLoaded(p, hosts[1..]);
      if !p.HasCapacity(hosts[0]) then rest
      else if rest.Some? && p.Used(rest.value) < p.Used(hosts[0]) then rest
      else Some(hosts[0])
  }

  function Select(p: Pool, prefer: Option<Spec>): Option<Spec>
  {
    if prefer.Some? && p.HasCapacity(prefer.value) then prefer else LeastLoaded(p, p.order)
  }

  function SetState(p: Pool, h: Spec, state: HostState): Pool { p.(states := p.states[h := state]) }

  function Occupy(p: Pool, h: Spec): Pool
    requires h in p.states
  {
    SetState(p, h, p.states[h].(inUse := p.states[h].inUse + 1))
  }

  function Vacate(p: Pool, h: Spec): Pool
  {
    if h in p.states && p.states[h].inUse > 0 then SetState(p, h, p.states[h].(inUse := p.states[h].inUse - 1)) else p
  }

  function Flag(p: Pool, h: Spec, reachable: bool, error: Option<string>): Pool
    requires h in p.states
  {
    SetState(p, h, p.states[h].(reachable := reachable, lastError := error))
  }

  // ---- Selection ----

  ghost predicate IsBest(p: Pool, hosts: seq<Spec>, k: nat)
    requires k < |hosts|
  {
    && p.HasCapacity(hosts[k])
    && forall i :: 0 <= i < |hosts| && p.HasCapacity(hosts[i]) ==>
         if i < k then p.Used(hosts[k]) < p.Used(hosts[i]) else p.Used(hosts[k]) <= p.Used(hosts[i])
  }

  lemma {:induction false} LeastLoadedIsBest(p: Pool, hosts: seq<Spec>)
    ensures LeastLoaded(p, hosts).None? <==> forall i :: 0 <= i < |hosts| ==> !p.HasCapacity(hosts[i])
    ensures LeastLoaded(p, hosts).Some? ==>
              exists k :: 0 <= k < |hosts| && hosts[k] == LeastLoaded(p, hosts).value && IsBest(p, hosts, k)
  {
    if hosts != [] {
      LeastLoadedIsBest(p, hosts[1..]);
      var rest := LeastLoaded(p, hosts[1..]);
      if !p.HasCapacity(hosts[0]) || (rest.Some? && p.Used(rest.value) < p.Used(hosts[0])) {
        if rest.Some? {
          var k :| 0 <= k < |hosts[1..]| && hosts[1..][k] == rest.value && IsBest(p, hosts[1..], k);
          assert hosts[k + 1] == rest.value;
          forall i | 0 <= i < |hosts| && p.HasCapacity(hosts[i])
            ensures if i < k + 1 then p.Used(hosts[k + 1]) < p.Used(hosts[i])
                    else p.Used(hosts[k + 1]) <= p.Used(hosts[i])
          {
            assert i > 0 ==> hosts[i] == hosts[1..][i - 1];
          }
          assert IsBest(p, hosts, k + 1);
        } else {
          assert forall i :: 0 < i < |hosts| ==> hosts[i] == hosts[1..][i - 1];
        }
      } else {
        forall i | 0 <= i < |hosts| && p.HasCapacity(hosts[i]) ensures p.Used(hosts[0]) <= p.Used(hosts[i]) {
          if i > 0 {
            assert hosts[i] == hosts[1..][i - 1];
            var k :| rest.Some? ==> 0 <= k < |hosts[1..]| && hosts[1..][k] == rest.value && IsBest(p, hosts[1..], k);
          }
        }
        assert IsBest(p, hosts, 0);
      }
    }
  }

  lemma SelectIsNoneIffSaturated(p: Pool, prefer: Option<Spec>)
    requires p.Valid()
    ensures Select(p, prefer).None? <==> forall h :: !p.HasCapacity(h)
    ensures Select(p, prefer).Some? ==> p.HasCapacity(Select(p, prefer).value)
  {
    LeastLoadedIsBest(p, p.order);
    if h :| p.HasCapacity(h) {
      assert h in p.order;
    }
  }

  lemma {:induction false} AddAllKeepsValid(p: Pool, hosts: seq<Spec>)
    requires p.Valid()
    ensures AddAll(p, hosts).Valid() && AddAll(p, hosts).cap == p.cap
    ensures forall h :: h in AddAll(p, hosts).states <==> h in p.states || h in hosts
    ensures forall h :: h in AddAll(p, hosts).states && h !in p.states ==>
              AddAll(p, hosts).states[h] == HostState(0, true, None)
    ensures forall h :: h in p.states ==> AddAll(p, hosts).states[h] == p.states[h]
    decreases |hosts|
  {
    if hosts != [] {
      AddAllKeepsValid(Add(p, hosts[0]), hosts[1..]);
    }
  }

  // ---- The tasks around the pool ----

  /**
    Where a task stands. Every section the source runs under the condition's lock runs without suspending, so it is one
    step here; between sections a task may wait for the lock as long as it likes. `valid` says whether the remote path
    of the acquisition passes its checks.
   */
  datatype Phase =
    | Wanting(prefer: Option<Spec>, valid: bool)
    | Sleeping(prefer: Option<Spec>, valid: bool)
    | Holding(host: Spec)
    | Releasing(host: Spec)
    /** `mark_*` has set the flag and has yet to notify. */
    | Announcing(host: Spec, up: bool)
    /** `mark_*` was cancelled in between. */
    | Silenced(host: Spec, up: bool)
    | Done

  datatype World = World(pool: Pool, tasks: seq<Phase>)

  datatype Step =
    | Acquire(prefer: Option<Spec>, valid: bool)
    | TryAcquire(prefer: Option<Spec>, valid: bool)
    | Enter(task: nat)
    | GiveUp(task: nat)
    | BeginRelease(task: nat)
    | EndRelease(task: nat)
    | CancelRelease(task: nat)
    | Mark(host: Spec, up: bool, error: Option<string>)
    | EndMark(task: nat)
    | CancelMark(task: nat)

  function Awake(ph: Phase): Phase { if ph.Sleeping? then Wanting(ph.prefer, ph.valid) else ph }

  function NotifyAll(tasks: seq<Phase>): seq<Phase> { seq(|tasks|, i requires 0 <= i < |tasks| => Awake(tasks[i])) }

  /** What one attempt under the lock leaves the caller with. */
  function Attempt(p: Pool, prefer: Option<Spec>, valid: bool): (Pool, Phase)
  {
    var host := Select(p, prefer);
    if host.None? then (p, Sleeping(prefer, valid))
    else if !valid || host.value !in p.states then (p, Done)
    else (Occupy(p, host.value), Holding(host.value))
  }

  function Next(w: World, s: Step): World
  {
    match s
    case Acquire(prefer, valid) => if w.pool.order == [] then w else w.(tasks := w.tasks + [Wanting(prefer, valid)])
    case TryAcquire(prefer, valid) =>
      var (pool, phase) := Attempt(w.pool, prefer, valid);
      if w.pool.order == [] || !phase.Holding? then w else World(pool, w.tasks + [phase])
    case Mark(host, up, error) =>
      if host !in w.pool.states then w
      else World(Flag(w.pool, host, up, if up then None else error), w.tasks + [Announcing(host, up)])
    case Enter(i) =>
      if i >= |w.tasks| || !w.tasks[i].Wanting? then w
      else
        var (pool, phase) := Attempt(w.pool, w.tasks[i].prefer, w.tasks[i].valid);
        World(pool, w.tasks[i := phase])
    case GiveUp(i) =>
      if i < |w.tasks| && (w.tasks[i].Wanting? || w.tasks[i].Sleeping?) then w.(tasks := w.tasks[i := Done]) else w
    case BeginRelease(i) =>
      if i < |w.tasks| && w.tasks[i].Holding? then w.(tasks := w.tasks[i := Releasing(w.tasks[i].host)]) else w
    case CancelRelease(i) =>
      if i < |w.tasks| && w.tasks[i].Releasing? then w.(tasks := w.tasks[i := Holding(w.tasks[i].host)]) else w
    case EndRelease(i) =>
      if i < |w.tasks| && w.tasks[i].Releasing? then
        World(Vacate(w.pool, w.tasks[i].host), NotifyAll(w.tasks[i := Done]))
      else w
    case EndMark(i) =>
      if i < |w.tasks| && w.tasks[i].Announcing? then w.(tasks := NotifyAll(w.tasks[i := Done])) else w
    case CancelMark(i) =>
      if i < |w.tasks| && w.tasks[i].Announcing? then
        w.(tasks := w.tasks[i := Silenced(w.tasks[i].host, w.tasks[i].up)])
      else w
  }

  function Run(w: World, steps: seq<Step>): World
    decreases |steps|
  {
    if steps == [] then w else Run(Next(w, steps[0]), steps[1..])
  }

  function Start(hosts: seq<Spec>, cap: Option<int>): World { World(NewPool(hosts, cap), []) }

  // ---- What every step keeps ----

  function Occupies(ph: Phase, h: Spec): nat
  {
    if (ph.Holding? || ph.Releasing?) && ph.host == h then 1 else 0
  }

  /** Leases on `h` not yet returned. */
  function Outstanding(tasks: seq<Phase>, h: Spec): nat
  {
    if tasks == [] then 0 else Outstanding(tasks[..|tasks| - 1], h) + Occupies(tasks[|tasks| - 1], h)
  }

  lemma OutstandingAppend(tasks: seq<Phase>, ph: Phase, h: Spec)
    ensures Outstanding(tasks + [ph], h) == Outstanding(tasks, h) + Occupies(ph, h)
  {
    assert (tasks + [ph])[..|tasks|] == tasks;
  }

  lemma {:induction false} OutstandingUpdate(tasks: seq<Phase>, i: nat, ph: Phase, h: Spec)
    requires i < |tasks|
    ensures Outstanding(tasks[i := ph], h) + Occupies(tasks[i], h) == Outstanding(tasks, h) + Occupies(ph, h)
    decreases |tasks|
  {
    var n := |tasks| - 1;
    if i < n {
      OutstandingUpdate(tasks[..n], i, ph, h);
      assert tasks[i := ph][..n] == tasks[..n][i := ph];
    } else {
      assert tasks[i := ph][..n] == tasks[..n];
    }
  }

  lemma {:induction false} OutstandingNotified(tasks: seq<Phase>, h: Spec)
    ensures Outstanding(NotifyAll(tasks), h) == Outstanding(tasks, h)
    decreases |tasks|
  {
    if tasks != [] {
      var n := |tasks| - 1;
      OutstandingNotified(tasks[..n], h);
      assert NotifyAll(tasks)[..n] == NotifyAll(tasks[..n]);
    }
  }

  ghost predicate Counted(w: World)
  {
    forall h :: w.pool.Used(h) == Outstanding(w.tasks, h)
  }

  ghost predicate Capped(p: Pool)
  {
    forall h :: h in p.states && p.cap.Some? ==> p.states[h].inUse <= p.cap.value
  }

  predicate Owed(ph: Phase, h: Spec) { ph == Announcing(h, true) || ph == Silenced(h, true) }

  /** `mark_reachable(h)` has set its flag and no notification has followed. */
  ghost predicate WakeupOwed(tasks: seq<Phase>, h: Spec) { exists j :: 0 <= j < |tasks| && Owed(tasks[j], h) }

  ghost predicate NoLostWakeup(w: World)
  {
    (exists i :: 0 <= i < |w.tasks| && w.tasks[i].Sleeping?) ==>
      forall h :: w.pool.HasCapacity(h) ==> WakeupOwed(w.tasks, h)
  }

  ghost predicate Inv(w: World)
  {
    w.pool.Valid() && Counted(w) && Capped(w.pool) && NoLostWakeup(w)
  }

  lemma StepKeepsCounts(w: World, s: Step)
    requires w.pool.Valid() && Counted(w)
    ensures Next(w, s).pool.Valid() && Counted(Next(w, s))
  {
    var w' := Next(w, s);
    forall h ensures w'.pool.Used(h) == Outstanding(w'.tasks, h) {
      assert w.pool.Used(h) == Outstanding(w.tasks, h);
      StepCounts(w, s, h);
    }
  }

  lemma AttemptCounts(p: Pool, prefer: Option<Spec>, valid: bool, h: Spec)
    ensures Attempt(p, prefer, valid).0.Used(h) == p.Used(h) + Occupies(Attempt(p, prefer, valid).1, h)
  {
  }

  lemma EnterCounts(w: World, i: nat, h: Spec)
    requires Counted(w) && i < |w.tasks| && w.tasks[i].Wanting?
    ensures Next(w, Enter(i)).pool.Used(h) == Outstanding(Next(w, Enter(i)).tasks, h)
  {
    AttemptCounts(w.pool, w.tasks[i].prefer, w.tasks[i].valid, h);
    OutstandingUpdate(w.tasks, i, Attempt(w.pool, w.tasks[i].prefer, w.tasks[i].valid).1, h);
    assert w.pool.Used(h) == Outstanding(w.tasks, h);
  }

  lemma EndReleaseCounts(w: World, i: nat, h: Spec)
    requires Counted(w) && i < |w.tasks| && w.tasks[i].Releasing?
    ensures Next(w, EndRelease(i)).pool.Used(h) == Outstanding(Next(w, EndRelease(i)).tasks, h)
  {
    var host := w.tasks[i].host;
    assert w.pool.Used(host) == Outstanding(w.tasks, host) && w.pool.Used(h) == Outstanding(w.tasks, h);
    OutstandingUpdate(w.tasks, i, Done, host);
    OutstandingUpdate(w.tasks, i, Done, h);
    OutstandingNotified(w.tasks[i := Done], h);
    assert Vacate(w.pool, host).Used(h) == w.pool.Used(h) - if h == host then 1 else 0;
  }

  /** A task that moves on without taking or returning a lease. */
  lemma MoveCounts(w: World, i: nat, ph: Phase, h: Spec)
    requires Counted(w) && i < |w.tasks| && Occupies(w.tasks[i], h) == Occupies(ph, h)
    ensures w.pool.Used(h) == Outstanding(w.tasks[i := ph], h) == Outstanding(NotifyAll(w.tasks[i := ph]), h)
  {
    assert w.pool.Used(h) == Outstanding(w.tasks, h);
    OutstandingUpdate(w.tasks, i, ph, h);
    OutstandingNotified(w.tasks[i := ph], h);
  }

  /** A task arrives, with or without a lease. */
  lemma ArrivalCounts(w: World, pool: Pool, ph: Phase, h: Spec)
    requires Counted(w) && pool.Used(h) == w.pool.Used(h) + Occupies(ph, h)
    ensures pool.Used(h) == Outstanding(w.tasks + [ph], h)
  {
    assert w.pool.Used(h) == Outstanding(w.tasks, h);
    OutstandingAppend(w.tasks, ph, h);
  }

  lemma AcquireCounts(w: World, prefer: Option<Spec>, valid: bool, h: Spec)
    requires Counted(w)
    ensures Next(w, Acquire(prefer, valid)).pool.Used(h) == Outstanding(Next(w, Acquire(prefer, valid)).tasks, h)
  {
    ArrivalCounts(w, w.pool, Wanting(prefer, valid), h);
    assert w.pool.Used(h) == Outstanding(w.tasks, h);
  }

  lemma TryAcquireCounts(w: World, prefer: Option<Spec>, valid: bool, h: Spec)
    requires Counted(w)
    ensures Next(w, TryAcquire(prefer, valid)).pool.Used(h) == Outstanding(Next(w, TryAcquire(prefer, valid)).tasks, h)
  {
    var (pool, phase) := Attempt(w.pool, prefer, valid);
    AttemptCounts(w.pool, prefer, valid, h);
    ArrivalCounts(w, pool, phase, h);
    assert w.pool.Used(h) == Outstanding(w.tasks, h);
  }

  lemma MarkCounts(w: World, host: Spec, up: bool, error: Option<string>, h: Spec)
    requires Counted(w)
    ensures Next(w, Mark(host, up, error)).pool.Used(h) == Outstanding(Next(w, Mark(host, up, error)).tasks, h)
  {
    if host in w.pool.states {
      ArrivalCounts(w, Flag(w.pool, host, up, if up then None else error), Announcing(host, up), h);
    }
    assert w.pool.Used(h) == Outstanding(w.tasks, h);
  }

  lemma LeaseCounts(w: World, s: Step, h: Spec)
    requires Counted(w) && (s.BeginRelease? || s.CancelRelease? || s.EndRelease?)
    ensures Next(w, s).pool.Used(h) == Outstanding(Next(w, s).tasks, h)
  {
    assert w.pool.Used(h) == Outstanding(w.tasks, h);
    var i := s.task;
    if i < |w.tasks| {
      if s.BeginRelease? && w.tasks[i].Holding? { MoveCounts(w, i, Releasing(w.tasks[i].host), h); }
      if s.CancelRelease? && w.tasks[i].Releasing? { MoveCounts(w, i, Holding(w.tasks[i].host), h); }
      if s.EndRelease? && w.tasks[i].Releasing? { EndReleaseCounts(w, i, h); }
    }
  }

  lemma StepCounts(w: World, s: Step, h: Spec)
    requires Counted(w)
    ensures Next(w, s).pool.Used(h) == Outstanding(Next(w, s).tasks, h)
  {
    if s.Acquire? {
      AcquireCounts(w, s.prefer, s.valid, h);
    } else if s.TryAcquire? {
      TryAcquireCounts(w, s.prefer, s.valid, h);
    } else if s.Mark? {
      MarkCounts(w, s.host, s.up, s.error, h);
    } else if s.BeginRelease? || s.CancelRelease? || s.EndRelease? {
      LeaseCounts(w, s, h);
    } else {
      WaitCounts(w, s, h);
    }
  }

  lemma WaitCounts(w: World, s: Step, h: Spec)
    requires Counted(w) && (s.Enter? || s.GiveUp? || s.EndMark? || s.CancelMark?)
    ensures Next(w, s).pool.Used(h) == Outstanding(Next(w, s).tasks, h)
  {
    assert w.pool.Used(h) == Outstanding(w.tasks, h);
    var i := s.task;
    if i < |w.tasks| {
      if s.Enter? && w.tasks[i].Wanting? { EnterCounts(w, i, h); }
      if s.GiveUp? && (w.tasks[i].Wanting? || w.tasks[i].Sleeping?) { MoveCounts(w, i, Done, h); }
      if s.EndMark? && w.tasks[i].Announcing? { MoveCounts(w, i, Done, h); }
      if s.CancelMark? && w.tasks[i].Announcing? { MoveCounts(w, i, Silenced(w.tasks[i].host, w.tasks[i].up), h); }
    }
  }

  lemma StepKeepsCap(w: World, s: Step)
    requires w.pool.Valid() && Capped(w.pool)
    ensures Capped(Next(w, s).pool) && Next(w, s).pool.cap == w.pool.cap
  {
    match s
    case TryAcquire(prefer, valid) => SelectIsNoneIffSaturated(w.pool, prefer);
    case Enter(i) =>
      if i < |w.tasks| && w.tasks[i].Wanting? { SelectIsNoneIffSaturated(w.pool, w.tasks[i].prefer); }
    case _ =>
  }

  lemma OwedSurvives(tasks: seq<Phase>, tasks': seq<Phase>, h: Spec)
    requires |tasks| <= |tasks'| && WakeupOwed(tasks, h)
    requires forall j :: 0 <= j < |tasks| && Owed(tasks[j], h) ==> Owed(tasks'[j], h)
    ensures WakeupOwed(tasks', h)
  {
    var j :| 0 <= j < |tasks| && Owed(tasks[j], h);
    assert Owed(tasks'[j], h);
  }

  lemma StepKeepsWakeups(w: World, s: Step)
    requires w.pool.Valid() && NoLostWakeup(w)
    ensures NoLostWakeup(Next(w, s))
  {
    var w' := Next(w, s);
    if exists i :: 0 <= i < |w'.tasks| && w'.tasks[i].Sleeping? {
      var i :| 0 <= i < |w'.tasks| && w'.tasks[i].Sleeping?;
      forall h | w'.pool.HasCapacity(h) ensures WakeupOwed(w'.tasks, h) {
        CapacityIsAnnounced(w, s, i, h);
      }
    }
  }

  lemma CapacityIsAnnounced(w: World, s: Step, i: nat, h: Spec)
    requires w.pool.Valid() && NoLostWakeup(w)
    requires var w' := Next(w, s); i < |w'.tasks| && w'.tasks[i].Sleeping? && w'.pool.HasCapacity(h)
    ensures WakeupOwed(Next(w, s).tasks, h)
  {
    var w' := Next(w, s);
    if s.Mark? && s.host == h && s.up && h in w.pool.states {
      assert Owed(w'.tasks[|w.tasks|], h);
    } else {
      assert i < |w.tasks|;
      if !w.tasks[i].Sleeping? {
        SelectIsNoneIffSaturated(w.pool, w.tasks[i].prefer);
        assert false;
      } else {
        if s.TryAcquire? { SelectIsNoneIffSaturated(w.pool, s.prefer); }
        assert w.pool.HasCapacity(h);
        OwedSurvives(w.tasks, w'.tasks, h);
      }
    }
  }

  lemma StepKeepsInv(w: World, s: Step)
    requires Inv(w)
    ensures Inv(Next(w, s)) && Next(w, s).pool.cap == w.pool.cap
  {
    StepKeepsCounts(w, s);
    StepKeepsCap(w, s);
    StepKeepsWakeups(w, s);
  }

  lemma {:induction false} RunKeepsInv(w: World, steps: seq<Step>)
    requires Inv(w)
    ensures Inv(Run(w, steps)) && Run(w, steps).pool.cap == w.pool.cap
    decreases |steps|
  {
    if steps != [] {
      StepKeepsInv(w, steps[0]);
      RunKeepsInv(Next(w, steps[0]), steps[1..]);
    }
  }

  lemma StartHasInv(hosts: seq<Spec>, cap: Option<int>)
    ensures Inv(Start(hosts, cap))
    ensures Start(hosts, cap).pool.cap == if cap.Some? && cap.value > 0 then Some(cap.value) else None
    ensures forall h :: h in Start(hosts, cap).pool.states <==> h in hosts
  {
    AddAllKeepsValid(Pool([], map[], if cap.Some? && cap.value > 0 then Some(cap.value) else None), hosts);
  }

  // ---- The main results, over every run ----

  /** A host's count is the number of its leases not yet returned, and never passes a positive configured cap. */
  lemma LeasesAreCounted(hosts: seq<Spec>, cap: Option<int>, steps: seq<Step>, h: Spec)
    ensures var w := Run(Start(hosts, cap), steps);
            && w.pool.Used(h) == Outstanding(w.tasks, h)
            && (cap.Some? && cap.value > 0 ==> Outstanding(w.tasks, h) <= cap.value)
  {
    StartHasInv(hosts, cap);
    RunKeepsInv(Start(hosts, cap), steps);
  }

  /**
    While a task sleeps un-notified, a host has capacity only if `mark_reachable` on that very host has not notified
    yet; so once every mark call has finished uncancelled, sleeping means the pool is saturated.
   */
  lemma NoWakeupIsLost(hosts: seq<Spec>, cap: Option<int>, steps: seq<Step>, i: nat, h: Spec)
    requires var w := Run(Start(hosts, cap), steps);
             i < |w.tasks| && w.tasks[i].Sleeping? && w.pool.HasCapacity(h)
    ensures var w := Run(Start(hosts, cap), steps);
            exists j :: 0 <= j < |w.tasks| && Owed(w.tasks[j], h)
  {
    StartHasInv(hosts, cap);
    RunKeepsInv(Start(hosts, cap), steps);
  }

  /** A woken task that gets the lock leaves with a lease exactly when some host has capacity, and sleeps otherwise. */
  lemma EnteringSucceedsIffCapacity(w: World, i: nat)
    requires Inv(w) && i < |w.tasks| && w.tasks[i].Wanting? && w.tasks[i].valid
    ensures var w' := Next(w, Enter(i));
            if exists h :: w.pool.HasCapacity(h) then
              && w'.tasks[i].Holding? && w.pool.HasCapacity(w'.tasks[i].host)
              && w'.pool == Occupy(w.pool, w'.tasks[i].host)
            else w'.tasks[i].Sleeping? && w'.pool == w.pool
  {
    SelectIsNoneIffSaturated(w.pool, w.tasks[i].prefer);
  }

  /** Finishing a mark or a release leaves nobody asleep. */
  lemma NotifyingWakesEverybody(w: World, i: nat, k: nat)
    requires i < |w.tasks| && k < |w.tasks| && w.tasks[k].Sleeping?
    ensures w.tasks[i].Announcing? ==> Next(w, EndMark(i)).tasks[k] == Wanting(w.tasks[k].prefer, w.tasks[k].valid)
    ensures w.tasks[i].Releasing? ==> Next(w, EndRelease(i)).tasks[k] == Wanting(w.tasks[k].prefer, w.tasks[k].valid)
  {
  }

  /**
    A wakeup on its way arrives: once the `mark_reachable` that a sleeper is owed has notified, the sleeper is awake,
    and if it then is the first to get the lock it leaves with a lease.
   */
  lemma AnnouncementDelivers(w: World, i: nat, j: nat, h: Spec)
    requires Inv(w) && i < |w.tasks| && w.tasks[i].Sleeping? && w.tasks[i].valid
    requires j < |w.tasks| && w.tasks[j] == Announcing(h, true) && w.pool.HasCapacity(h)
    ensures var woken := Next(w, EndMark(j));
            woken.tasks[i].Wanting? && Next(woken, Enter(i)).tasks[i].Holding?
  {
    var woken := Next(w, EndMark(j));
    NotifyingWakesEverybody(w, j, i);
    StepKeepsInv(w, EndMark(j));
    assert woken.pool.HasCapacity(h);
    EnteringSucceedsIffCapacity(woken, i);
  }

  /** A host has capacity exactly when it is reachable and one more lease keeps the cap; others are never selected. */
  lemma CapacityIsRoomForOneMore(p: Pool, h: Spec)
    requires p.Valid() && Capped(p) && h in p.states
    ensures p.HasCapacity(h) <==> p.states[h].reachable && Capped(Occupy(p, h))
    ensures p.HasCapacity(h) <==> exists prefer :: Select(p, prefer) == Some(h)
  {
    assert h in Occupy(p, h).states && Occupy(p, h).states[h].inUse == p.states[h].inUse + 1;
    if p.HasCapacity(h) {
      assert Select(p, Some(h)) == Some(h);
    }
    if prefer :| Select(p, prefer) == Some(h) {
      SelectIsNoneIffSaturated(p, prefer);
    }
  }

  // ---- Marks ----

  /** Marked up, a host has capacity if its cap leaves room; marked down, it has none. Nothing else changes. */
  lemma MarkTakesEffect(w: World, host: Spec, up: bool, error: Option<string>)
    requires host in w.pool.states
    ensures var p, p' := w.pool, Next(w, Mark(host, up, error)).pool;
            && (p'.HasCapacity(host) <==> up && (p.cap.None? || p.states[host].inUse < p.cap.value))
            && host in p'.states && p'.states[host].lastError == (if up then None else error)
            && p'.Used(host) == p.Used(host) && p'.cap == p.cap && p'.order == p.order
            && p'.states - {host} == p.states - {host}
  {
  }

  lemma DownAfterStep(w: World, s: Step, host: Spec)
    requires w.pool.Valid() && host in w.pool.states && !w.pool.states[host].reachable
    requires !(s.Mark? && s.host == host && s.up)
    ensures var p' := Next(w, s).pool;
            p'.Valid() && host in p'.states && !p'.states[host].reachable && p'.Used(host) <= w.pool.Used(host)
  {
    if s.TryAcquire? {
      SelectIsNoneIffSaturated(w.pool, s.prefer);
    }
    if s.Enter? && s.task < |w.tasks| && w.tasks[s.task].Wanting? {
      SelectIsNoneIffSaturated(w.pool, w.tasks[s.task].prefer);
    }
  }

  /** Whatever the tasks do, a host taken out of rotation gets no new lease until it is marked reachable. */
  lemma {:induction false} DownGetsNoLease(w: World, steps: seq<Step>, host: Spec)
    requires w.pool.Valid() && host in w.pool.states && !w.pool.states[host].reachable
    requires forall i :: 0 <= i < |steps| ==> !(steps[i].Mark? && steps[i].host == host && steps[i].up)
    ensures Run(w, steps).pool.Used(host) <= w.pool.Used(host)
    ensures forall prefer :: Select(Run(w, steps).pool, prefer) != Some(host)
    decreases |steps|
  {
    if steps == [] {
      forall prefer ensures Select(w.pool, prefer) != Some(host) {
        SelectIsNoneIffSaturated(w.pool, prefer);
      }
    } else {
      DownAfterStep(w, steps[0], host);
      DownGetsNoLease(Next(w, steps[0]), steps[1..], host);
    }
  }

  // ---- Returning a lease twice ----

  /** Another `release` of a lease already returned: the slot is vacated again, and everybody is notified again. */
  function ReleaseAgain(w: World, h: Spec): World
  {
    World(Vacate(w.pool, h), NotifyAll(w.tasks))
  }

  /** `release` is idempotent on a pool exactly when the host has at most one lease out. */
  lemma ReleaseIsIdempotentIff(p: Pool, h: Spec)
    ensures Vacate(Vacate(p, h), h) == Vacate(p, h) <==> p.Used(h) <= 1
  {
    if p.Used(h) > 1 {
      assert Vacate(Vacate(p, h), h).Used(h) == p.Used(h) - 2;
    }
  }

  /** A host with two leases, one of them returned twice: the pool forgets the other one. */
  lemma ReleaseIsNotIdempotent()
    ensures var p := Pool(["a"], map["a" := HostState(2, true, None)], Some(2));
            Vacate(p, "a").Used("a") == 1 && Vacate(Vacate(p, "a"), "a").Used("a") == 0
  {
  }

  /**
    Over every run: returning a lease once more than it was taken is harmless if and only if no other lease is out on
    that host; otherwise the count falls one short of the leases.
   */
  lemma DoubleReleaseIsHarmlessIff(hosts: seq<Spec>, cap: Option<int>, steps: seq<Step>, h: Spec)
    ensures var w := Run(Start(hosts, cap), steps);
            var w' := ReleaseAgain(w, h);
            && (Counted(w') <==> Outstanding(w.tasks, h) == 0)
            && (Inv(w') <==> Outstanding(w.tasks, h) == 0)
            && w'.pool.Used(h) == if Outstanding(w.tasks, h) == 0 then 0 else Outstanding(w'.tasks, h) - 1
  {
    var w := Run(Start(hosts, cap), steps);
    var w' := ReleaseAgain(w, h);
    StartHasInv(hosts, cap);
    RunKeepsInv(Start(hosts, cap), steps);
    assert w.pool.Used(h) == Outstanding(w.tasks, h);
    OutstandingNotified(w.tasks, h);
    if Outstanding(w.tasks, h) == 0 {
      assert w'.pool == w.pool;
      forall k ensures w'.pool.Used(k) == Outstanding(w'.tasks, k) {
        OutstandingNotified(w.tasks, k);
        assert w.pool.Used(k) == Outstanding(w.tasks, k);
      }
    } else {
      assert w'.pool.Used(h) != Outstanding(w'.tasks, h);
    }
  }

  /** What the miscount costs: a reachable host at its cap takes one lease more than the cap allows. */
  lemma DoubleReleaseOverfills(hosts: seq<Spec>, cap: nat, steps: seq<Step>, h: Spec)
    requires cap > 0
    requires var w := Run(Start(hosts, Some(cap)), steps);
             Outstanding(w.tasks, h) == cap && h in w.pool.states && w.pool.states[h].reachable
    ensures var w := Run(Start(hosts, Some(cap)), steps);
            Outstanding(Next(ReleaseAgain(w, h), TryAcquire(Some(h), true)).tasks, h) == cap + 1
  {
    var w := Run(Start(hosts, Some(cap)), steps);
    var w' := ReleaseAgain(w, h);
    StartHasInv(hosts, Some(cap));
    RunKeepsInv(Start(hosts, Some(cap)), steps);
    assert w.pool.Used(h) == Outstanding(w.tasks, h);
    OutstandingNotified(w.tasks, h);
    assert w'.pool.HasCapacity(h) && h in w.pool.order;
    OutstandingAppend(w'.tasks, Holding(h), h);
  }

  /**
    Duplicate entries do not double capacity: a host listed twice is one host.
   */
  lemma DuplicatesAreDropped(hosts: seq<Spec>, cap: Option<int>)
    ensures var p := NewPool(hosts, cap);
            && p.Valid()
            && forall h :: h in p.order <==> h in hosts
  {
    StartHasInv(hosts, cap);
  }

  /** A preferred host with capacity wins; else the least loaded one, the earliest configured among equals. */
  lemma SelectPicksTheBest(p: Pool, prefer: Option<Spec>)
    requires p.Valid() && Select(p, prefer).Some?
    ensures if prefer.Some? && p.HasCapacity(prefer.value) then Select(p, prefer) == prefer
            else exists k :: 0 <= k < |p.order| && p.order[k] == Select(p, prefer).value && IsBest(p, p.order, k)
  {
    LeastLoadedIsBest(p, p.order);
  }
}

/** The pool object, updated in place. */
module HostPoolObject {
  import opened Options
  import P = HostPools

  class HostPool {
    var order: seq<P.Spec>
    var states: map<P.Spec, P.HostState>
    const cap: Option<nat>

    ghost function Now(): P.Pool
      reads this
    {
      P.Pool(order, states, cap)
    }

    constructor (hosts: seq<P.Spec>, maxPerHost: Option<int>)
      ensures Now() == P.NewPool(hosts, maxPerHost)
    {
      order, states := [], map[];
      cap := if maxPerHost.Some? && maxPerHost.value > 0 then Some(maxPerHost.value) else None;
      new;
      for i := 0 to |hosts|
        invariant P.NewPool(hosts, maxPerHost) == P.AddAll(Now(), hosts[i..])
      {
        assert hosts[i..][1..] == hosts[i + 1..];
        if hosts[i] !in states {
          states := states[hosts[i] := P.HostState(0, true, None)];
          order := order + [hosts[i]];
        }
      }
    }

    method HasCapacity(h: P.Spec) returns (has: bool)
      ensures has == Now().HasCapacity(h)
    {
      if h !in states || !states[h].reachable {
        return false;
      }
      return cap.None? || states[h].inUse < cap.value;
    }

    method Select(prefer: Option<P.Spec>) returns (host: Option<P.Spec>)
      ensures host == P.Select(Now(), prefer)
    {
      if prefer.Some? {
        var free := HasCapacity(prefer.value);
        if free {
          return prefer;
        }
      }
      host := None;
      for i := 0 to |order|
        invariant host.Some? ==> host.value in states
        invariant P.LeastLoaded(Now(), order) == Better(host, P.LeastLoaded(Now(), order[i..]))
      {
        assert order[i..][1..] == order[i + 1..];
        var free := HasCapacity(order[i]);
        if free && (host.None? || states[order[i]].inUse < states[host.value].inUse) {
          host := Some(order[i]);
        }
      }
    }

    /** The earlier of two picks, unless the later one is less loaded. */
    ghost function Better(earlier: Option<P.Spec>, later: Option<P.Spec>): Option<P.Spec>
      reads this
    {
      if earlier.None? || (later.Some? && Now().Used(later.value) < Now().Used(earlier.value)) then later else earlier
    }

    /** One attempt: None leaves the issue unclaimed, or the remote path was refused. */
    method TryAcquire(prefer: Option<P.Spec>, valid: bool) returns (host: Option<P.Spec>)
      modifies this
      ensures var (pool, phase) := P.Attempt(old(Now()), prefer, valid);
              Now() == pool && host == if phase.Holding? then Some(phase.host) else None
    {
      host := Select(prefer);
      if host.None? {
        return;
      }
      if !valid || host.value !in states {
        return None;
      }
      var state := states[host.value];
      states := states[host.value := state.(inUse := state.inUse + 1)];
    }

    /** The section of `release` under the lock. */
    method Release(h: P.Spec)
      modifies this
      ensures Now() == P.Vacate(old(Now()), h)
    {
      if h !in states {
        return;
      }
      var state := states[h];
      if state.inUse > 0 {
        states := states[h := state.(inUse := state.inUse - 1)];
      }
    }

    /** The sections of `mark_reachable` and `mark_unreachable` before the lock; false is the error for a stranger. */
    method Mark(h: P.Spec, up: bool, error: Option<string>) returns (known: bool)
      modifies this
      ensures known == (h in old(states))
      ensures Now() == if known then P.Flag(old(Now()), h, up, if up then None else error) else old(Now())
    {
      known := h in states;
      if known {
        states := states[h := states[h].(reachable := up, lastError := if up then None else error)];
      }
    }
  }
}
