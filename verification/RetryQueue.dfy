/**
  The retry timer queue of src/symphony/orchestrator/retry.py. A cancelled timer's callback may still run once, at
  any later time; generations make such a firing inert.
 */
module RetryTimers {
  import opened Numbers
  import opened Options
  import opened Backoff

  type Id = string

  /** One armed timer: the issue and the generation its callback carries. */
  datatype Shot = Shot(id: Id, generation: nat)

  datatype Entry = Entry(identifier: Option<string>, attempt: int, dueAtMs: int, error: Option<string>)

  datatype DelayType = Continuation | Failure | Unknown

  /** The fields of the queue; then the callbacks that have not run yet, and three histories. */
  datatype Queue = Queue(
    entries: map<Id, Entry>,
    generations: map<Id, nat>,
    sequence: nat,
    maxBackoffMs: int,
    scheduled: nat,
    replaced: nat,
    cancelled: nat,
    fired: nat,
    droppedStale: nat,
    outstanding: set<Shot>,
    retired: set<Shot>,
    popped: nat,
    delivered: seq<Shot>)

  function Empty(maxBackoffMs: int): Queue
  {
    Queue(map[], map[], 0, maxBackoffMs, 0, 0, 0, 0, 0, {}, {}, 0, [])
  }

  datatype Op =
    | Schedule(id: Id, entry: Entry, delayType: DelayType, arms: bool)
    | Cancel(id: Id)
    | Pop(id: Id)
    | Fire(shot: Shot)
    /** A workflow reload re-points the cap; timers already armed keep their delays. */
    | Reload(maxBackoffMs: int)

  function DelayFor(attempt: int, delayType: DelayType, maxBackoffMs: int): Option<int>
  {
    match delayType
    case Continuation => Some(CONTINUATION_DELAY_MS)
    case Failure => Some(BackoffDelayMs(attempt, maxBackoffMs))
    case Unknown => None
  }

  function Drop(q: Queue, id: Id): Queue
  {
    q.(entries := q.entries - {id}, generations := q.generations - {id},
       retired := q.retired + if id in q.generations then {Shot(id, q.generations[id])} else {})
  }

  /** Record an entry under a generation never used before, and arm its timer. */
  function Arm(q: Queue, id: Id, entry: Entry): Queue
  {
    q.(entries := q.entries[id := entry],
       generations := q.generations[id := q.sequence],
       outstanding := q.outstanding + {Shot(id, q.sequence)},
       scheduled := q.scheduled + 1)
  }

  function Replace(q: Queue, id: Id): Queue
  {
    Drop(q, id).(replaced := q.replaced + if id in q.entries then 1 else 0, sequence := q.sequence + 1)
  }

  /** `entry.dueAtMs` is the clock reading at the call; the stored entry is due after the delay. */
  function DoSchedule(q: Queue, id: Id, entry: Entry, delay: Option<int>, arms: bool): Queue
  {
    if delay.None? then q else Rearm(Replace(q, id), id, entry.(dueAtMs := entry.dueAtMs + delay.value), arms)
  }

  function Rearm(q: Queue, id: Id, entry: Entry, arms: bool): Queue { if arms then Arm(q, id, entry) else q }

  function DoCancel(q: Queue, id: Id): Queue
  {
    Drop(q, id).(cancelled := q.cancelled + if id in q.entries then 1 else 0)
  }

  function DoPop(q: Queue, id: Id): Queue
  {
    Drop(q, id).(popped := q.popped + if id in q.entries then 1 else 0)
  }

  predicate Live(q: Queue, shot: Shot)
  {
    shot.id in q.generations && q.generations[shot.id] == shot.generation && shot.id in q.entries
  }

  function DoFire(q: Queue, shot: Shot): Queue
  {
    if shot !in q.outstanding then q
    else if Live(q, shot) then
      q.(outstanding := q.outstanding - {shot}, fired := q.fired + 1, delivered := q.delivered + [shot])
    else q.(outstanding := q.outstanding - {shot}, droppedStale := q.droppedStale + 1)
  }

  function Step(q: Queue, op: Op): Queue
  {
    match op
    case Schedule(id, entry, delayType, arms) =>
      DoSchedule(q, id, entry, DelayFor(entry.attempt, delayType, q.maxBackoffMs), arms)
    case Cancel(id) => DoCancel(q, id)
    case Pop(id) => DoPop(q, id)
    case Fire(shot) => DoFire(q, shot)
    case Reload(maxBackoffMs) => q.(maxBackoffMs := maxBackoffMs)
  }

  function Run(q: Queue, ops: seq<Op>): Queue
    decreases |ops|
  {
    if ops == [] then q else Run(Step(q, ops[0]), ops[1..])
  }

  // ---- The queue with perfect cancellation ----

  datatype Pending = Pending(generation: nat, entry: Entry)

  /** Cancelling takes the armed timer away for good; only an armed timer ever fires. */
  datatype Perfect =
    Perfect(pending: map<Id, Pending>, armed: set<Shot>, delivered: seq<Shot>, maxBackoffMs: int)

  function PerfectDrop(p: Perfect, id: Id): Perfect
  {
    p.(pending := p.pending - {id}, armed := set s | s in p.armed && s.id != id)
  }

  function PerfectArm(p: Perfect, id: Id, generation: nat, entry: Entry): Perfect
  {
    p.(pending := p.pending[id := Pending(generation, entry)], armed := p.armed + {Shot(id, generation)})
  }

  function PerfectSchedule(p: Perfect, id: Id, generation: nat, entry: Entry): Perfect
  {
    PerfectArm(PerfectDrop(p, id), id, generation, entry)
  }

  function PerfectFire(p: Perfect, shot: Shot): Perfect
    requires shot in p.armed
  {
    p.(armed := p.armed - {shot}, delivered := p.delivered + [shot])
  }

  /** What a perfect queue remembers of this one. */
  function Abstract(q: Queue): Perfect
  {
    Perfect(map id | id in q.entries && id in q.generations :: Pending(q.generations[id], q.entries[id]),
            (set s | s in q.outstanding && Live(q, s)),
            q.delivered,
            q.maxBackoffMs)
  }

  // ---- The invariant ----

  ghost predicate Inv(q: Queue)
  {
    Shape(q) && q.scheduled == |q.entries| + q.replaced + q.cancelled + q.popped
  }

  ghost predicate Shape(q: Queue)
  {
    && (forall id :: id in q.entries <==> id in q.generations)
    && (forall id :: id in q.generations ==>
          q.generations[id] <= q.sequence && Shot(id, q.generations[id]) !in q.retired)
    && (forall s :: s in q.outstanding ==> s.generation <= q.sequence && (s in q.retired || Live(q, s)))
    && (forall s :: s in q.retired ==> s.generation <= q.sequence)
    && (forall i :: 0 <= i < |q.delivered| ==>
          q.delivered[i] !in q.outstanding && q.delivered[i].generation <= q.sequence)
    && (forall i, j :: 0 <= i < j < |q.delivered| ==> q.delivered[i] != q.delivered[j])
  }

  /** The counters play no part in which firings are live. */
  lemma CountersAreInert(q: Queue, q': Queue)
    requires q'.entries == q.entries && q'.generations == q.generations && q'.sequence == q.sequence
    requires q'.maxBackoffMs == q.maxBackoffMs
    requires q'.outstanding == q.outstanding && q'.retired == q.retired && q'.delivered == q.delivered
    ensures Shape(q') == Shape(q) && Abstract(q') == Abstract(q)
  {
    assert forall s :: Live(q', s) == Live(q, s);
  }

  lemma ReloadIsInert(q: Queue, maxBackoffMs: int)
    ensures var q' := q.(maxBackoffMs := maxBackoffMs);
            Shape(q') == Shape(q) && Abstract(q') == Abstract(q).(maxBackoffMs := maxBackoffMs)
  {
    assert forall s :: Live(q.(maxBackoffMs := maxBackoffMs), s) == Live(q, s);
  }

  lemma DropSize(q: Queue, id: Id)
    ensures |Drop(q, id).entries| == |q.entries| - if id in q.entries then 1 else 0
  {
    var rest := q.entries - {id};
    if id in q.entries {
      assert q.entries == rest[id := q.entries[id]];
    } else {
      assert q.entries == rest;
    }
  }

  lemma DropKeepsShape(q: Queue, id: Id)
    requires Shape(q)
    ensures Shape(Drop(q, id)) && id !in Drop(q, id).entries
  {
    var q' := Drop(q, id);
    forall s | s in q'.outstanding ensures s.generation <= q'.sequence && (s in q'.retired || Live(q', s)) {
      assert Live(q, s) && s.id == id ==> s == Shot(id, q.generations[id]);
    }
  }

  lemma ReplaceKeepsShape(q: Queue, id: Id)
    requires Shape(q)
    ensures Shape(Replace(q, id)) && Unused(Replace(q, id)) && id !in Replace(q, id).entries
  {
    DropKeepsShape(q, id);
    assert forall s :: Live(Replace(q, id), s) == Live(Drop(q, id), s);
  }

  /** The generation armed is larger than any retired, outstanding or delivered one. */
  ghost predicate Unused(q: Queue)
  {
    && (forall s :: s in q.retired || s in q.outstanding ==> s.generation < q.sequence)
    && (forall i :: 0 <= i < |q.delivered| ==> q.delivered[i].generation < q.sequence)
  }

  lemma ArmKeepsShots(q: Queue, id: Id, entry: Entry)
    requires Shape(q) && id !in q.entries && Unused(q)
    ensures var q' := Arm(q, id, entry);
            && (forall s :: s in q'.outstanding ==> s.generation <= q'.sequence && (s in q'.retired || Live(q', s)))
            && (forall i :: 0 <= i < |q'.delivered| ==> q'.delivered[i] !in q'.outstanding)
  {
    var q' := Arm(q, id, entry);
    forall s | s in q'.outstanding ensures s.generation <= q'.sequence && (s in q'.retired || Live(q', s)) {
      assert s != Shot(id, q.sequence) ==> s in q.outstanding && (Live(q, s) ==> s.id != id);
    }
  }

  lemma ArmKeepsShape(q: Queue, id: Id, entry: Entry)
    requires Shape(q) && id !in q.entries && Unused(q)
    ensures Shape(Arm(q, id, entry)) && |Arm(q, id, entry).entries| == |q.entries| + 1
  {
    ArmKeepsShots(q, id, entry);
  }

  lemma ArmKeepsInv(q: Queue, id: Id, entry: Entry)
    requires Inv(q) && id !in q.entries && Unused(q)
    ensures Inv(Arm(q, id, entry))
  {
    ArmKeepsShape(q, id, entry);
  }

  lemma RearmKeepsInv(q: Queue, id: Id, entry: Entry, arms: bool)
    requires Inv(q) && id !in q.entries && Unused(q)
    ensures Inv(Rearm(q, id, entry, arms))
  {
    if arms {
      ArmKeepsInv(q, id, entry);
    }
  }

  lemma ReplaceKeepsInv(q: Queue, id: Id)
    requires Inv(q)
    ensures Inv(Replace(q, id)) && id !in Replace(q, id).entries && Unused(Replace(q, id))
  {
    DropSize(q, id);
    ReplaceKeepsShape(q, id);
  }

  lemma ReplacingKeepsInv(q: Queue, cleared: Queue, q': Queue, id: Id, entry: Entry, arms: bool)
    requires Inv(q) && cleared == Replace(q, id) && q' == Rearm(cleared, id, entry, arms)
    ensures Inv(q')
  {
    ReplaceKeepsInv(q, id);
    RearmKeepsInv(cleared, id, entry, arms);
  }

  lemma SchedulingRearms(q: Queue, id: Id, entry: Entry, delay: int, arms: bool)
    ensures DoSchedule(q, id, entry, Some(delay), arms)
         == Rearm(Replace(q, id), id, entry.(dueAtMs := entry.dueAtMs + delay), arms)
  {
  }

  lemma ScheduledKeepsInv(q: Queue, cleared: Queue, q': Queue, id: Id, entry: Entry, due: Entry, delay: int, arms: bool)
    requires Inv(q) && cleared == Replace(q, id) && due == entry.(dueAtMs := entry.dueAtMs + delay)
    requires q' == DoSchedule(q, id, entry, Some(delay), arms)
    ensures Inv(q')
  {
    SchedulingRearms(q, id, entry, delay, arms);
    ReplacingKeepsInv(q, cleared, q', id, due, arms);
  }

  lemma ScheduleKeepsInv(q: Queue, id: Id, entry: Entry, delay: Option<int>, arms: bool, q': Queue)
    requires Inv(q) && q' == DoSchedule(q, id, entry, delay, arms)
    ensures Inv(q')
  {
    if delay.Some? {
      var due := entry.(dueAtMs := entry.dueAtMs + delay.value);
      ScheduledKeepsInv(q, Replace(q, id), q', id, entry, due, delay.value, arms);
    }
  }

  lemma CancelKeepsInv(q: Queue, id: Id)
    requires Inv(q)
    ensures Inv(DoCancel(q, id)) && Inv(DoPop(q, id))
  {
    DropSize(q, id);
    DropKeepsShape(q, id);
    CountersAreInert(Drop(q, id), DoCancel(q, id));
    CountersAreInert(Drop(q, id), DoPop(q, id));
  }

  lemma FireKeepsInv(q: Queue, shot: Shot)
    requires Inv(q)
    ensures Inv(DoFire(q, shot))
  {
    assert forall s :: Live(DoFire(q, shot), s) == Live(q, s);
  }

  lemma StepKeepsInv(q: Queue, op: Op)
    requires Inv(q)
    ensures Inv(Step(q, op))
  {
    match op
    case Schedule(id, entry, delayType, arms) =>
      ScheduleKeepsInv(q, id, entry, DelayFor(entry.attempt, delayType, q.maxBackoffMs), arms, Step(q, op));
    case Cancel(id) => CancelKeepsInv(q, id);
    case Pop(id) => CancelKeepsInv(q, id);
    case Fire(shot) => FireKeepsInv(q, shot);
    case Reload(maxBackoffMs) => ReloadIsInert(q, maxBackoffMs);
  }

  lemma {:induction false} RunKeepsInv(q: Queue, ops: seq<Op>)
    requires Inv(q)
    ensures Inv(Run(q, ops))
    decreases |ops|
  {
    if ops != [] {
      StepKeepsInv(q, ops[0]);
      RunKeepsInv(Step(q, ops[0]), ops[1..]);
    }
  }

  // ---- Refinement ----

  function PerfectScheduleStep(p: Perfect, id: Id, entry: Entry, delay: Option<int>, arms: bool, generation: nat)
    : Perfect
  {
    if delay.None? then p
    else if !arms then PerfectDrop(p, id)
    else PerfectSchedule(p, id, generation, entry.(dueAtMs := entry.dueAtMs + delay.value))
  }

  /** The perfect queue's view of one operation: a stale firing is nothing at all. */
  function PerfectStep(p: Perfect, op: Op, generation: nat): Perfect
  {
    match op
    case Schedule(id, entry, delayType, arms) =>
      PerfectScheduleStep(p, id, entry, DelayFor(entry.attempt, delayType, p.maxBackoffMs), arms, generation)
    case Cancel(id) => PerfectDrop(p, id)
    case Pop(id) => PerfectDrop(p, id)
    case Fire(shot) => if shot in p.armed then PerfectFire(p, shot) else p
    case Reload(maxBackoffMs) => p.(maxBackoffMs := maxBackoffMs)
  }

  lemma DropRefines(q: Queue, id: Id)
    requires Shape(q)
    ensures Abstract(Drop(q, id)) == PerfectDrop(Abstract(q), id)
  {
    assert forall s :: Live(Drop(q, id), s) <==> Live(q, s) && s.id != id;
  }

  lemma ArmRefines(q: Queue, id: Id, entry: Entry)
    requires Shape(q) && id !in q.entries
    ensures Abstract(Arm(q, id, entry)) == PerfectArm(Abstract(q), id, q.sequence, entry)
  {
    assert forall s :: Live(Arm(q, id, entry), s) <==> Live(q, s) || s == Shot(id, q.sequence);
  }

  lemma ReplaceRefines(q: Queue, id: Id)
    requires Shape(q)
    ensures Abstract(Replace(q, id)) == PerfectDrop(Abstract(q), id)
  {
    DropRefines(q, id);
    assert forall s :: Live(Replace(q, id), s) == Live(Drop(q, id), s);
  }

  lemma FireRefines(q: Queue, shot: Shot)
    requires Inv(q)
    ensures var p := Abstract(q);
            Abstract(DoFire(q, shot)) == if shot in p.armed then PerfectFire(p, shot) else p
  {
    assert forall s :: Live(DoFire(q, shot), s) == Live(q, s);
  }

  lemma ReplaceAndArmRefines(q: Queue, id: Id, entry: Entry)
    requires Inv(q)
    ensures Abstract(Arm(Replace(q, id), id, entry)) == PerfectSchedule(Abstract(q), id, q.sequence + 1, entry)
  {
    ReplaceRefines(q, id);
    ReplaceKeepsShape(q, id);
    ArmAfterDrop(q, Replace(q, id), id, entry);
  }

  lemma ArmAfterDrop(q: Queue, r: Queue, id: Id, entry: Entry)
    requires Shape(r) && id !in r.entries && r.sequence == q.sequence + 1
    requires Abstract(r) == PerfectDrop(Abstract(q), id)
    ensures Abstract(Arm(r, id, entry)) == PerfectSchedule(Abstract(q), id, q.sequence + 1, entry)
  {
    ArmRefines(r, id, entry);
  }

  lemma ScheduleRefines(q: Queue, id: Id, entry: Entry, delay: Option<int>, arms: bool)
    requires Inv(q)
    ensures Abstract(DoSchedule(q, id, entry, delay, arms))
         == PerfectScheduleStep(Abstract(q), id, entry, delay, arms, q.sequence + 1)
  {
    if delay.Some? && arms {
      var due := entry.(dueAtMs := entry.dueAtMs + delay.value);
      var q' := Arm(Replace(q, id), id, due);
      assert q' == DoSchedule(q, id, entry, delay, arms);
      ReplaceAndArmRefines(q, id, due);
    } else if delay.Some? {
      ReplaceRefines(q, id);
    }
  }

  lemma StepRefinesPerfectCancellation(q: Queue, op: Op)
    requires Inv(q)
    ensures Abstract(Step(q, op)) == PerfectStep(Abstract(q), op, q.sequence + 1)
  {
    match op
    case Schedule(id, entry, delayType, arms) =>
      ScheduleRefines(q, id, entry, DelayFor(entry.attempt, delayType, q.maxBackoffMs), arms);
    case Cancel(id) =>
      DropRefines(q, id);
      CountersAreInert(Drop(q, id), DoCancel(q, id));
    case Pop(id) =>
      DropRefines(q, id);
      CountersAreInert(Drop(q, id), DoPop(q, id));
    case Fire(shot) => FireRefines(q, shot);
    case Reload(maxBackoffMs) => ReloadIsInert(q, maxBackoffMs);
  }

  /** The same run on a perfect queue; `generations` names the entries it creates. */
  function PerfectRun(p: Perfect, ops: seq<Op>, generations: seq<nat>): Perfect
    requires |generations| == |ops|
    decreases |ops|
  {
    if ops == [] then p
    else PerfectRun(PerfectStep(p, ops[0], generations[0]), ops[1..], generations[1..])
  }

  function GenerationsOf(q: Queue, ops: seq<Op>): (g: seq<nat>)
    ensures |g| == |ops|
    decreases |ops|
  {
    if ops == [] then [] else [q.sequence + 1] + GenerationsOf(Step(q, ops[0]), ops[1..])
  }

  lemma PerfectRunUnfolds(q: Queue, ops: seq<Op>)
    requires ops != []
    ensures PerfectRun(Abstract(q), ops, GenerationsOf(q, ops))
         == PerfectRun(PerfectStep(Abstract(q), ops[0], q.sequence + 1), ops[1..],
                       GenerationsOf(Step(q, ops[0]), ops[1..]))
  {
    var g := GenerationsOf(q, ops);
    assert g[0] == q.sequence + 1 && g[1..] == GenerationsOf(Step(q, ops[0]), ops[1..]);
  }

  /** Over any run, the deliveries and the pending entries are those of a queue whose cancelled timers never fire. */
  lemma {:induction false} RunRefinesPerfectCancellation(q: Queue, ops: seq<Op>)
    requires Inv(q)
    ensures Abstract(Run(q, ops)) == PerfectRun(Abstract(q), ops, GenerationsOf(q, ops))
    decreases |ops|
  {
    if ops != [] {
      StepRefinesPerfectCancellation(q, ops[0]);
      StepKeepsInv(q, ops[0]);
      RunRefinesPerfectCancellation(Step(q, ops[0]), ops[1..]);
      PerfectRunUnfolds(q, ops);
    }
  }

  /** A callback delivers its entry exactly when that entry was not replaced, cancelled or popped before. */
  lemma FiringDeliversIffNotRetired(maxBackoffMs: int, ops: seq<Op>, shot: Shot)
    requires shot in Run(Empty(maxBackoffMs), ops).outstanding
    ensures var q := Run(Empty(maxBackoffMs), ops);
            DoFire(q, shot).delivered == (if shot in q.retired then q.delivered else q.delivered + [shot])
  {
    RunKeepsInv(Empty(maxBackoffMs), ops);
  }

  /** Each scheduled entry is delivered at most once, and every scheduled entry is accounted for. */
  lemma DeliveredAtMostOnce(maxBackoffMs: int, ops: seq<Op>)
    ensures var q := Run(Empty(maxBackoffMs), ops);
            && (forall i, j :: 0 <= i < j < |q.delivered| ==> q.delivered[i] != q.delivered[j])
            && q.entries.Keys == q.generations.Keys
            && q.scheduled == |q.entries| + q.replaced + q.cancelled + q.popped
  {
    RunKeepsInv(Empty(maxBackoffMs), ops);
  }

  // ---- What scheduling does ----

  /** The delays of the two regimes; an unknown one raises. */
  function DocumentedDelay(attempt: int, delayType: DelayType, maxBackoffMs: int): int
    requires !delayType.Unknown?
  {
    if delayType.Continuation? then 1_000 else Max(0, Min(10_000 * Pow2(Max(attempt, 1) - 1), maxBackoffMs))
  }

  /** The issue has the entry, and the only callback of it that would be delivered is a newly armed one. */
  ghost predicate FreshlyArmed(q: Queue, q': Queue, id: Id, entry: Entry)
  {
    && id in q'.entries && q'.entries[id] == entry
    && exists g :: Shot(id, g) in q'.outstanding && Shot(id, g) !in q.outstanding
                   && forall s :: s in q'.outstanding && s.id == id ==> (Live(q', s) <==> s.generation == g)
  }

  ghost predicate Disarmed(q: Queue, id: Id)
  {
    id !in q.entries && forall s :: s in q.outstanding && s.id == id ==> !Live(q, s)
  }

  ghost predicate OthersUntouched(q: Queue, q': Queue, id: Id)
  {
    && q'.entries - {id} == q.entries - {id}
    && forall s: Shot :: s.id != id ==> (s in q'.outstanding <==> s in q.outstanding) && (Live(q', s) <==> Live(q, s))
  }

  /**
    Scheduling records the entry as due after the documented delay, arms one new timer and makes every older one inert;
    if the timer cannot be armed, the issue is left with nothing; an unknown regime changes nothing at all.
   */
  lemma ScheduleArmsOneTimer(q: Queue, id: Id, entry: Entry, delayType: DelayType, arms: bool)
    requires Inv(q)
    ensures var q' := Step(q, Schedule(id, entry, delayType, arms));
            if delayType.Unknown? then q' == q
            else
              && OthersUntouched(q, q', id)
              && var delay := DocumentedDelay(entry.attempt, delayType, q.maxBackoffMs);
                 if arms then FreshlyArmed(q, q', id, entry.(dueAtMs := entry.dueAtMs + delay)) else Disarmed(q', id)
  {
    if !delayType.Unknown? {
      DelayIsDocumented(entry.attempt, delayType, q.maxBackoffMs);
      var delay := DocumentedDelay(entry.attempt, delayType, q.maxBackoffMs);
      var q' := Step(q, Schedule(id, entry, delayType, arms));
      SchedulingRearms(q, id, entry, delay, arms);
      RearmedIsFresh(q, Replace(q, id), q', id, entry.(dueAtMs := entry.dueAtMs + delay), arms);
      RearmedLeavesOthers(q, q', id, entry.(dueAtMs := entry.dueAtMs + delay), arms);
    }
  }

  lemma DelayIsDocumented(attempt: int, delayType: DelayType, maxBackoffMs: int)
    requires !delayType.Unknown?
    ensures DelayFor(attempt, delayType, maxBackoffMs) == Some(DocumentedDelay(attempt, delayType, maxBackoffMs))
  {
    BackoffIsDocumentedFormula(attempt, maxBackoffMs);
  }

  lemma RearmedIsFresh(q: Queue, cleared: Queue, q': Queue, id: Id, entry: Entry, arms: bool)
    requires Inv(q) && cleared == Replace(q, id) && q' == Rearm(cleared, id, entry, arms)
    ensures if arms then FreshlyArmed(q, q', id, entry) else Disarmed(q', id)
  {
    ReplaceKeepsShape(q, id);
    if arms {
      var g := cleared.sequence;
      assert Shot(id, g) !in cleared.outstanding && cleared.outstanding == q.outstanding;
      forall s | s in q'.outstanding && s.id == id ensures Live(q', s) <==> s.generation == g {
        assert q'.generations[id] == g;
      }
      assert Shot(id, g) in q'.outstanding;
    }
  }

  lemma RearmedLeavesOthers(q: Queue, q': Queue, id: Id, entry: Entry, arms: bool)
    requires q' == Rearm(Replace(q, id), id, entry, arms)
    ensures OthersUntouched(q, q', id)
  {
  }

  // ---- The object ----

  class RetryQueue {
    var entries: map<Id, Entry>
    var generations: map<Id, nat>
    var sequence: nat
    var maxBackoffMs: int
    var scheduledCount: nat
    var replacedCount: nat
    var cancelledCount: nat
    var firedCount: nat
    var droppedStaleCount: nat
    ghost var outstanding: set<Shot>
    ghost var retired: set<Shot>
    ghost var popped: nat
    ghost var delivered: seq<Shot>

    ghost function Value(): Queue
      reads this
    {
      Queue(entries, generations, sequence, maxBackoffMs, scheduledCount, replacedCount, cancelledCount,
            firedCount, droppedStaleCount, outstanding, retired, popped, delivered)
    }

    constructor (maxBackoffMs: int)
      ensures Value() == Empty(maxBackoffMs)
    {
      entries, generations, sequence := map[], map[], 0;
      this.maxBackoffMs := maxBackoffMs;
      scheduledCount, replacedCount, cancelledCount, firedCount, droppedStaleCount := 0, 0, 0, 0, 0;
      outstanding, retired, popped, delivered := {}, {}, 0, [];
    }

    method Discard(id: Id) returns (existed: bool)
      modifies this
      ensures Value() == Drop(old(Value()), id)
      ensures existed == (id in old(entries))
    {
      existed := id in entries;
      retired := retired + if id in generations then {Shot(id, generations[id])} else {};
      entries := entries - {id};
      generations := generations - {id};
    }

    /** Record the entry, then arm its timer; a timer factory that raises leaves no entry behind. */
    method Insert(id: Id, entry: Entry, arms: bool)
      requires id !in entries && id !in generations
      modifies this
      ensures Value() == if arms then Arm(old(Value()), id, entry) else old(Value())
    {
      entries := entries[id := entry];
      generations := generations[id := sequence];
      if arms {
        outstanding := outstanding + {Shot(id, sequence)};
        scheduledCount := scheduledCount + 1;
      } else {
        entries := entries - {id};
        generations := generations - {id};
        assert entries == old(entries) && generations == old(generations);
      }
    }

    /** `arms` says whether the timer factory returns; None is the error it, or an unknown delay type, raises. */
    method Schedule(id: Id, attempt: int, identifier: Option<string>, error: Option<string>, delayType: DelayType,
                    nowMs: int, arms: bool) returns (entry: Option<Entry>)
      modifies this
      ensures var delay := DelayFor(attempt, delayType, old(maxBackoffMs));
              && Value() == DoSchedule(old(Value()), id, Entry(identifier, attempt, nowMs, error), delay, arms)
              && entry == if delay.Some? && arms then Some(Entry(identifier, attempt, nowMs + delay.value, error))
                          else None
    {
      var delay := DelayFor(attempt, delayType, maxBackoffMs);
      if delay.None? {
        return None;
      }
      var existed := Discard(id);
      if existed {
        replacedCount := replacedCount + 1;
      }
      sequence := sequence + 1;
      var made := Entry(identifier, attempt, nowMs + delay.value, error);
      Insert(id, made, arms);
      return if arms then Some(made) else None;
    }

    method Cancel(id: Id) returns (existed: bool)
      modifies this
      ensures Value() == DoCancel(old(Value()), id)
      ensures existed == (id in old(entries))
    {
      existed := Discard(id);
      if existed {
        cancelledCount := cancelledCount + 1;
      }
    }

    method Pop(id: Id) returns (entry: Option<Entry>)
      modifies this
      ensures Value() == DoPop(old(Value()), id)
      ensures entry == if id in old(entries) then Some(old(entries)[id]) else None
    {
      entry := if id in entries then Some(entries[id]) else None;
      var existed := Discard(id);
      popped := popped + if existed then 1 else 0;
    }

    /** The timer callback, which the event loop runs at most once. */
    method OnTimer(id: Id, generation: nat) returns (due: bool)
      requires Shot(id, generation) in outstanding
      modifies this
      ensures Value() == DoFire(old(Value()), Shot(id, generation))
      ensures due == Live(old(Value()), Shot(id, generation))
    {
      outstanding := outstanding - {Shot(id, generation)};
      if id !in generations || generations[id] != generation || id !in entries {
        droppedStaleCount := droppedStaleCount + 1;
        return false;
      }
      firedCount := firedCount + 1;
      delivered := delivered + [Shot(id, generation)];
      return true;
    }
  }
}
