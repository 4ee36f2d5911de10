/** One worker attempt (src/symphony/agent/runner.py): every way out owes a definite cleanup. */
module Runner {
  import opened Numbers
  import opened Options
  import opened Models
  import opened Scheduling

  datatype Reply = Fine | Error | Cancel

  datatype Refreshed = Issues(issues: seq<Issue>) | RefreshError | RefreshCancel

  /** What one turn meets; `config` is the configuration in force when the refresh is judged. */
  datatype TurnEnv = TurnEnv(promptOk: bool, turn: Reply, refresh: Refreshed, config: Config)

  datatype Env = Env(
    workspace: Reply,
    beforeRun: Reply,
    start: Reply,
    turns: nat -> TurnEnv,
    stop: Reply,
    afterRun: Reply,
    maxTurns: int)

  datatype Effect =
    | CreateWorkspace
    | BeforeRun
    | StartSession
    | Prompt(turn: nat, isTask: bool, issue: Issue)
    | RunTurn(turn: nat, issue: Issue)
    | Refresh(turn: nat, id: IssueId)
    | StopSession
    | AfterRun

  datatype Failure = WorkspaceError | BeforeRunError | StartupError | PromptError | TurnError | RefreshFailed

  datatype Break = IssueMissing | StateInactive | NotRoutable | MaxTurnsReached

  datatype Exit = Normal(why: Break) | Failed(cause: Failure) | Cancelled

  /** None when the refreshed issue may have another turn. */
  function BreakFor(refreshed: seq<Issue>, config: Config, turn: nat, maxTurns: int): Option<Break>
  {
    if refreshed == [] then Some(IssueMissing)
    else
      var issue := refreshed[0];
      if !config.IsActive(issue.state) || config.IsTerminal(issue.state) then Some(StateInactive)
      else if !IssueRoutable(issue, config) then Some(NotRoutable)
      else if turn >= maxTurns then Some(MaxTurnsReached)
      else None
  }

  function OneTurn(turn: nat, issue: Issue): seq<Effect>
  {
    [Prompt(turn, turn <= 1, issue), RunTurn(turn, issue), Refresh(turn, issue.id)]
  }

  /** One turn: how the attempt ends with it, if it does, and what it did. */
  function TakeTurn(t: TurnEnv, issue: Issue, turn: nat, maxTurns: int): (Option<Exit>, seq<Effect>)
  {
    var effects := OneTurn(turn, issue);
    if !t.promptOk then (Some(Failed(PromptError)), effects[..1])
    else if t.turn != Fine then (Some(if t.turn == Cancel then Cancelled else Failed(TurnError)), effects[..2])
    else
      match t.refresh
      case RefreshError => (Some(Failed(RefreshFailed)), effects)
      case RefreshCancel => (Some(Cancelled), effects)
      case Issues(issues) =>
        var why := BreakFor(issues, t.config, turn, maxTurns);
        (if why.Some? then Some(Normal(why.value)) else None, effects)
  }

  function TurnLoop(env: Env, issue: Issue, turn: nat): (Exit, seq<Effect>)
    decreases if turn < env.maxTurns then env.maxTurns - turn else 0
  {
    var (end, effects) := TakeTurn(env.turns(turn), issue, turn, env.maxTurns);
    if end.Some? then (end.value, effects)
    else
      var (exit, later) := TurnLoop(env, env.turns(turn).refresh.issues[0], turn + 1);
      (exit, effects + later)
  }

  /** A failing cleanup step is ignored; a cancelled one replaces the outcome and skips what is left. */
  function Clean(env: Env, exit: Exit): (Exit, seq<Effect>)
  {
    if env.stop == Cancel then (Cancelled, [StopSession])
    else (if env.afterRun == Cancel then Cancelled else exit, [StopSession, AfterRun])
  }

  function Attempt(env: Env, issue: Issue): (Exit, seq<Effect>)
  {
    if env.workspace != Fine then
      (if env.workspace == Cancel then Cancelled else Failed(WorkspaceError), [CreateWorkspace])
    else if env.beforeRun != Fine then
      (if env.beforeRun == Cancel then Cancelled else Failed(BeforeRunError), [CreateWorkspace, BeforeRun])
    else if env.start != Fine then
      (if env.start == Cancel || env.afterRun == Cancel then Cancelled else Failed(StartupError),
       [CreateWorkspace, BeforeRun, StartSession, AfterRun])
    else
      var (exit, effects) := TurnLoop(env, issue, 1);
      var (final, cleanup) := Clean(env, exit);
      (final, [CreateWorkspace, BeforeRun, StartSession] + effects + cleanup)
  }

  // ---- The runner ----

  /** Shared between the turn loop and the tool executor. */
  class AttemptContext {
    var issue: Issue
    var turnNumber: nat

    constructor (issue: Issue)
      ensures this.issue == issue && turnNumber == 1
    {
      this.issue := issue;
      turnNumber := 1;
    }
  }

  /** The four breaks of the loop. */
  method Judge(ctx: AttemptContext, issues: seq<Issue>, config: Config, maxTurns: int) returns (stop: Option<Break>)
    modifies ctx`issue
    ensures stop == BreakFor(issues, config, ctx.turnNumber, maxTurns)
    ensures ctx.issue == if issues == [] then old(ctx.issue) else issues[0]
  {
    if issues == [] {
      return Some(IssueMissing);
    }
    ctx.issue := issues[0];
    var state := ctx.issue.state;
    if !config.IsActive(state) || config.IsTerminal(state) {
      return Some(StateInactive);
    }
    if !IssueRoutable(ctx.issue, config) {
      return Some(NotRoutable);
    }
    if ctx.turnNumber >= maxTurns {
      return Some(MaxTurnsReached);
    }
    return None;
  }

  method DoTurn(t: TurnEnv, ctx: AttemptContext, maxTurns: int) returns (end: Option<Exit>, effects: seq<Effect>)
    modifies ctx`issue
    ensures (end, effects) == TakeTurn(t, old(ctx.issue), ctx.turnNumber, maxTurns)
    ensures end.None? ==> ctx.issue == t.refresh.issues[0]
  {
    effects := [Prompt(ctx.turnNumber, ctx.turnNumber <= 1, ctx.issue)];
    if !t.promptOk {
      assert effects == OneTurn(ctx.turnNumber, ctx.issue)[..1];
      return Some(Failed(PromptError)), effects;
    }
    effects := effects + [RunTurn(ctx.turnNumber, ctx.issue)];
    if t.turn != Fine {
      assert effects == OneTurn(ctx.turnNumber, ctx.issue)[..2];
      return Some(if t.turn == Cancel then Cancelled else Failed(TurnError)), effects;
    }
    effects := effects + [Refresh(ctx.turnNumber, ctx.issue.id)];
    assert effects == OneTurn(ctx.turnNumber, ctx.issue);
    match t.refresh {
      case RefreshError => return Some(Failed(RefreshFailed)), effects;
      case RefreshCancel => return Some(Cancelled), effects;
      case Issues(issues) =>
        var stop := Judge(ctx, issues, t.config, maxTurns);
        return if stop.Some? then Some(Normal(stop.value)) else None, effects;
    }
  }

  /** After `trace`, the loop has the rest of `whole` ahead of it. */
  ghost predicate Ahead(env: Env, issue: Issue, turn: nat, trace: seq<Effect>, whole: (Exit, seq<Effect>))
  {
    whole == (TurnLoop(env, issue, turn).0, trace + TurnLoop(env, issue, turn).1)
  }

  lemma LoopContinues(env: Env, issue: Issue, turn: nat, trace: seq<Effect>, whole: (Exit, seq<Effect>))
    requires Ahead(env, issue, turn, trace, whole)
    ensures var (end, effects) := TakeTurn(env.turns(turn), issue, turn, env.maxTurns);
            if end.Some? then whole == (end.value, trace + effects)
            else turn < env.maxTurns && Ahead(env, env.turns(turn).refresh.issues[0], turn + 1, trace + effects, whole)
  {
    var (end, effects) := TakeTurn(env.turns(turn), issue, turn, env.maxTurns);
    if end.None? {
      var later := TurnLoop(env, env.turns(turn).refresh.issues[0], turn + 1).1;
      assert trace + (effects + later) == (trace + effects) + later;
    }
  }

  method RunTurnLoop(env: Env, ctx: AttemptContext) returns (exit: Exit, trace: seq<Effect>)
    modifies ctx
    ensures Ahead(env, old(ctx.issue), old(ctx.turnNumber), [], (exit, trace))
  {
    trace := [];
    ghost var whole := (TurnLoop(env, ctx.issue, ctx.turnNumber).0, trace + TurnLoop(env, ctx.issue, ctx.turnNumber).1);
    while true
      invariant Ahead(env, ctx.issue, ctx.turnNumber, trace, whole)
      decreases if ctx.turnNumber < env.maxTurns then env.maxTurns - ctx.turnNumber else 0
    {
      LoopContinues(env, ctx.issue, ctx.turnNumber, trace, whole);
      var end, effects := DoTurn(env.turns(ctx.turnNumber), ctx, env.maxTurns);
      trace := trace + effects;
      if end.Some? {
        return end.value, trace;
      }
      ctx.turnNumber := ctx.turnNumber + 1;
    }
  }

  method RunAttempt(env: Env, issue: Issue) returns (exit: Exit, trace: seq<Effect>)
    ensures (exit, trace) == Attempt(env, issue)
  {
    trace := [CreateWorkspace];
    if env.workspace != Fine {
      return if env.workspace == Cancel then Cancelled else Failed(WorkspaceError), trace;
    }
    trace := trace + [BeforeRun];
    if env.beforeRun != Fine {
      assert trace == [CreateWorkspace, BeforeRun];
      return if env.beforeRun == Cancel then Cancelled else Failed(BeforeRunError), trace;
    }
    var ctx := new AttemptContext(issue);
    trace := trace + [StartSession];
    if env.start != Fine {
      trace := trace + [AfterRun];
      assert trace == [CreateWorkspace, BeforeRun, StartSession, AfterRun];
      return if env.start == Cancel || env.afterRun == Cancel then Cancelled else Failed(StartupError), trace;
    }
    var effects;
    exit, effects := RunTurnLoop(env, ctx);
    assert effects == TurnLoop(env, issue, 1).1;
    trace := trace + effects + [StopSession];
    if env.stop == Cancel {
      assert trace == [CreateWorkspace, BeforeRun, StartSession] + effects + [StopSession];
      return Cancelled, trace;
    }
    trace := trace + [AfterRun];
    assert trace == [CreateWorkspace, BeforeRun, StartSession] + effects + [StopSession, AfterRun];
    if env.afterRun == Cancel {
      exit := Cancelled;
    }
  }

  // ---- What a run leaves behind ----

  function Count(trace: seq<Effect>, e: Effect): nat
  {
    if trace == [] then 0 else (if trace[0] == e then 1 else 0) + Count(trace[1..], e)
  }

  lemma {:induction false} CountAppend(a: seq<Effect>, b: seq<Effect>, e: Effect)
    ensures Count(a + b, e) == Count(a, e) + Count(b, e)
  {
    if a == [] {
      assert a + b == b;
    } else {
      assert (a + b)[1..] == a[1..] + b;
      CountAppend(a[1..], b, e);
    }
  }

  predicate TurnEffect(e: Effect) { e.Prompt? || e.RunTurn? || e.Refresh? }

  /** The loop itself neither stops the session nor runs hooks. */
  lemma {:induction false} LoopOnlyTakesTurns(env: Env, issue: Issue, turn: nat)
    ensures forall i :: 0 <= i < |TurnLoop(env, issue, turn).1| ==> TurnEffect(TurnLoop(env, issue, turn).1[i])
    decreases if turn < env.maxTurns then env.maxTurns - turn else 0
  {
    var t := env.turns(turn);
    if t.refresh.Issues? && BreakFor(t.refresh.issues, t.config, turn, env.maxTurns).None? {
      LoopOnlyTakesTurns(env, t.refresh.issues[0], turn + 1);
    }
  }

  lemma {:induction false} TurnsAreNotCounted(effects: seq<Effect>, e: Effect)
    requires forall i :: 0 <= i < |effects| ==> TurnEffect(effects[i])
    requires !TurnEffect(e)
    ensures Count(effects, e) == 0
  {
    if effects != [] {
      TurnsAreNotCounted(effects[1..], e);
    }
  }

  lemma CountsOfAttempt(env: Env, issue: Issue, e: Effect)
    requires e == StopSession || e == AfterRun
    requires env.workspace == Fine && env.beforeRun == Fine && env.start == Fine
    ensures Count(Attempt(env, issue).1, e) == Count(Clean(env, TurnLoop(env, issue, 1).0).1, e)
  {
    var (exit, effects) := TurnLoop(env, issue, 1);
    var opening, cleanup := [CreateWorkspace, BeforeRun, StartSession], Clean(env, exit).1;
    LoopOnlyTakesTurns(env, issue, 1);
    TurnsAreNotCounted(effects, e);
    CountAppend(opening + effects, cleanup, e);
    CountAppend(opening, effects, e);
    assert opening[1..] == [BeforeRun, StartSession] && opening[1..][1..] == [StartSession];
  }

  ghost predicate Started(env: Env) { env.workspace == Fine && env.beforeRun == Fine && env.start == Fine }

  lemma SmallCounts()
    ensures Count([StopSession], StopSession) == 1 && Count([StopSession], AfterRun) == 0
    ensures Count([StopSession, AfterRun], StopSession) == 1 && Count([StopSession, AfterRun], AfterRun) == 1
  {
    assert [StopSession, AfterRun][1..] == [AfterRun];
  }

  /**
    after_run happens exactly once if before_run succeeded, and never otherwise; the one exception is a session stop
    that is itself cancelled, which skips it.
   */
  lemma AfterRunIsOwedOnce(env: Env, issue: Issue)
    ensures Count(Attempt(env, issue).1, AfterRun)
         == (if env.workspace == Fine && env.beforeRun == Fine && !(env.start == Fine && env.stop == Cancel) then 1
             else 0)
  {
    SmallCounts();
    if Started(env) {
      CountsOfAttempt(env, issue, AfterRun);
    } else {
      assert [CreateWorkspace, BeforeRun, StartSession, AfterRun][1..] == [BeforeRun, StartSession, AfterRun];
      assert [BeforeRun, StartSession, AfterRun][1..] == [StartSession, AfterRun];
      assert [StartSession, AfterRun][1..] == [AfterRun];
      assert [CreateWorkspace, BeforeRun][1..] == [BeforeRun];
    }
  }

  /** An attempt of one turn whose session stop is cancelled, while everything else goes well. */
  function CancelledStop(config: Config): Env
  {
    Env(Fine, Fine, Fine, (turn: nat) => TurnEnv(true, Fine, Issues([]), config), Cancel, Fine, 1)
  }

  /** The witness: before_run succeeded, and after_run never happens. */
  lemma CancelledStopSkipsAfterRun(config: Config, issue: Issue)
    ensures BeforeRun in Attempt(CancelledStop(config), issue).1
    ensures AfterRun !in Attempt(CancelledStop(config), issue).1
  {
    var env := CancelledStop(config);
    LoopOnlyTakesTurns(env, issue, 1);
    assert Attempt(env, issue).1[1] == BeforeRun;
  }

  /** The session is stopped exactly once if and only if it started, before after_run and after everything else. */
  lemma StopIsOwedOnce(env: Env, issue: Issue)
    ensures var trace := Attempt(env, issue).1;
            && Count(trace, StopSession) == (if Started(env) then 1 else 0)
            && (Started(env) && env.stop != Cancel ==> |trace| >= 2 && trace[|trace| - 2..] == [StopSession, AfterRun])
            && (Started(env) && env.stop == Cancel ==> trace[|trace| - 1] == StopSession)
  {
    SmallCounts();
    if Started(env) {
      CountsOfAttempt(env, issue, StopSession);
    } else {
      assert [CreateWorkspace, BeforeRun, StartSession, AfterRun][1..] == [BeforeRun, StartSession, AfterRun];
      assert [BeforeRun, StartSession, AfterRun][1..] == [StartSession, AfterRun];
      assert [StartSession, AfterRun][1..] == [AfterRun];
      assert [CreateWorkspace, BeforeRun][1..] == [BeforeRun];
    }
  }

  /** The table `EXIT_PATHS`: does this exit stop a session, does it run after_run? Cancellation is not in it. */
  function ExitPaths(exit: Exit): (bool, bool)
    requires !exit.Cancelled?
  {
    match exit
    case Failed(WorkspaceError) => (false, false)
    case Failed(BeforeRunError) => (false, false)
    case Failed(StartupError) => (false, true)
    case Failed(PromptError) => (true, true)
    case Failed(TurnError) => (true, true)
    case Failed(RefreshFailed) => (true, true)
    case Normal(IssueMissing) => (true, true)
    case Normal(StateInactive) => (true, true)
    case Normal(NotRoutable) => (true, true)
    case Normal(MaxTurnsReached) => (true, true)
  }

  lemma {:induction false} LoopFailures(env: Env, issue: Issue, turn: nat)
    ensures var exit := TurnLoop(env, issue, turn).0;
            exit.Failed? ==> exit.cause == PromptError || exit.cause == TurnError || exit.cause == RefreshFailed
    decreases if turn < env.maxTurns then env.maxTurns - turn else 0
  {
    var t := env.turns(turn);
    if t.refresh.Issues? && BreakFor(t.refresh.issues, t.config, turn, env.maxTurns).None? {
      LoopFailures(env, t.refresh.issues[0], turn + 1);
    }
  }

  /** Every attempt that is not cancelled cleans up exactly as its row of the table says. */
  lemma ExitsMatchTheTable(env: Env, issue: Issue)
    requires !Attempt(env, issue).0.Cancelled?
    ensures var (exit, trace) := Attempt(env, issue);
            && Count(trace, StopSession) == (if ExitPaths(exit).0 then 1 else 0)
            && Count(trace, AfterRun) == (if ExitPaths(exit).1 then 1 else 0)
  {
    StopIsOwedOnce(env, issue);
    AfterRunIsOwedOnce(env, issue);
    LoopFailures(env, issue, 1);
  }

  /** Cleanup never masks the outcome: failing hooks and stops change nothing, only a cancellation does. */
  lemma CleanupDoesNotMask(env: Env, env': Env, issue: Issue)
    requires env' == env.(stop := env'.stop, afterRun := env'.afterRun)
    requires env.stop != Cancel && env.afterRun != Cancel && env'.stop != Cancel && env'.afterRun != Cancel
    ensures Attempt(env, issue) == Attempt(env', issue)
  {
    SameTurns(env, env', issue, 1);
  }

  lemma {:induction false} SameTurns(env: Env, env': Env, issue: Issue, turn: nat)
    requires env.turns == env'.turns && env.maxTurns == env'.maxTurns
    ensures TurnLoop(env, issue, turn) == TurnLoop(env', issue, turn)
    decreases if turn < env.maxTurns then env.maxTurns - turn else 0
  {
    var t := env.turns(turn);
    if t.refresh.Issues? && BreakFor(t.refresh.issues, t.config, turn, env.maxTurns).None? {
      SameTurns(env, env', t.refresh.issues[0], turn + 1);
    }
  }

  // ---- The turns ----

  /** The refresh after turn `k` found the issue fit for another turn, and `issue` is what it answered. */
  predicate ClearedFor(env: Env, k: nat, issue: Issue)
  {
    var t := env.turns(k);
    && t.promptOk && t.turn == Fine && t.refresh.Issues? && t.refresh.issues != [] && t.refresh.issues[0] == issue
    && t.config.IsActive(issue.state) && !t.config.IsTerminal(issue.state)
    && IssueRoutable(issue, t.config)
  }

  /** The i-th effect of a loop that begins with turn `first`. */
  ghost predicate InPlace(env: Env, effects: seq<Effect>, first: nat, i: nat)
    requires i < |effects|
  {
    var turn, e := first + i / 3, effects[i];
    match i % 3
    case 0 => e.Prompt? && e.turn == turn && e.isTask == (turn <= 1) && (i > 0 ==> ClearedFor(env, turn - 1, e.issue))
    case 1 => e.RunTurn? && e.turn == turn && effects[i - 1] == Prompt(turn, turn <= 1, e.issue)
    case _ => e.Refresh? && e.turn == turn && effects[i - 1].RunTurn? && e.id == effects[i - 1].issue.id
  }

  /** The loop goes on after turn `turn`, with this issue. */
  predicate GoesOn(env: Env, issue: Issue, turn: nat)
  {
    ClearedFor(env, turn, issue) && turn < env.maxTurns
  }

  lemma LoopUnfolds(env: Env, issue: Issue, first: nat)
    ensures var effects := TurnLoop(env, issue, first).1;
            if env.turns(first).refresh.Issues? && env.turns(first).refresh.issues != []
               && GoesOn(env, env.turns(first).refresh.issues[0], first)
            then TurnLoop(env, issue, first)
                 == (TurnLoop(env, env.turns(first).refresh.issues[0], first + 1).0,
                     OneTurn(first, issue) + TurnLoop(env, env.turns(first).refresh.issues[0], first + 1).1)
            else effects <= OneTurn(first, issue)
  {
    var turn := OneTurn(first, issue);
    assert turn[..1] == [Prompt(first, first <= 1, issue)];
    assert turn[..2] == turn[..1] + [RunTurn(first, issue)];
  }

  lemma {:induction false} LoopInPlace(env: Env, issue: Issue, first: nat, i: nat)
    requires i < |TurnLoop(env, issue, first).1|
    ensures InPlace(env, TurnLoop(env, issue, first).1, first, i)
    ensures i < 3 || first + i / 3 <= env.maxTurns
    ensures i == 0 ==> TurnLoop(env, issue, first).1[0] == Prompt(first, first <= 1, issue)
    decreases i
  {
    var effects := TurnLoop(env, issue, first).1;
    LoopUnfolds(env, issue, first);
    if i < 3 {
      FirstTurnInPlace(env, effects, first, issue, i);
    } else {
      var next := env.turns(first).refresh.issues[0];
      LoopInPlace(env, next, first + 1, i - 3);
      InPlaceShifts(env, OneTurn(first, issue), TurnLoop(env, next, first + 1).1, first, i - 3, next);
    }
  }

  lemma FirstTurnInPlace(env: Env, effects: seq<Effect>, first: nat, issue: Issue, i: nat)
    requires i < 3 && i < |effects| && (effects <= OneTurn(first, issue) || OneTurn(first, issue) <= effects)
    ensures InPlace(env, effects, first, i)
  {
    assert effects[i] == OneTurn(first, issue)[i];
    if i > 0 { assert effects[i - 1] == OneTurn(first, issue)[i - 1]; }
  }

  lemma InPlaceShifts(env: Env, turn: seq<Effect>, rest: seq<Effect>, first: nat, i: nat, next: Issue)
    requires |turn| == 3 && i < |rest| && InPlace(env, rest, first + 1, i)
    requires i == 0 ==> rest[0] == Prompt(first + 1, first + 1 <= 1, next) && ClearedFor(env, first, next)
    ensures InPlace(env, turn + rest, first, i + 3)
  {
    assert (turn + rest)[i + 3] == rest[i];
    if i > 0 { assert (turn + rest)[i + 2] == rest[i - 1]; }
  }

  /** Turns run by an attempt. */
  function TurnsRun(trace: seq<Effect>): nat
  {
    if trace == [] then 0 else (if trace[0].RunTurn? then 1 else 0) + TurnsRun(trace[1..])
  }

  lemma {:induction false} TurnsRunAppend(a: seq<Effect>, b: seq<Effect>)
    ensures TurnsRun(a + b) == TurnsRun(a) + TurnsRun(b)
  {
    if a == [] {
      assert a + b == b;
    } else {
      assert (a + b)[1..] == a[1..] + b;
      TurnsRunAppend(a[1..], b);
    }
  }

  lemma {:induction false} LoopTurns(env: Env, issue: Issue, first: nat)
    ensures var (exit, effects) := TurnLoop(env, issue, first);
            && TurnsRun(effects) <= Max(1, env.maxTurns - first + 1)
            && (exit == Normal(MaxTurnsReached) ==> TurnsRun(effects) == Max(1, env.maxTurns - first + 1))
    decreases if first < env.maxTurns then env.maxTurns - first else 0
  {
    var t := env.turns(first);
    LoopUnfolds(env, issue, first);
    TurnsRunOfOne(first, issue, TurnLoop(env, issue, first).1);
    if t.refresh.Issues? && t.refresh.issues != [] && GoesOn(env, t.refresh.issues[0], first) {
      LoopTurns(env, t.refresh.issues[0], first + 1);
      TurnsRunAppend(OneTurn(first, issue), TurnLoop(env, t.refresh.issues[0], first + 1).1);
    }
  }

  lemma TurnsRunOfOne(turn: nat, issue: Issue, effects: seq<Effect>)
    ensures TurnsRun(OneTurn(turn, issue)) == 1
    ensures effects <= OneTurn(turn, issue) ==> TurnsRun(effects) <= 1
  {
    var one := OneTurn(turn, issue);
    assert one[1..] == [RunTurn(turn, issue), Refresh(turn, issue.id)] && one[1..][1..] == [Refresh(turn, issue.id)];
    assert one[1..][1..][1..] == [];
    assert TurnsRun(one[1..][1..]) == 0 && TurnsRun(one[1..]) == 1;
    if effects <= one {
      TurnsRunAppend(effects, one[|effects|..]);
      assert effects + one[|effects|..] == one;
    }
  }

  /** Turns never exceed max(1, max_turns), and reach it when that is the reason for ending. */
  lemma TurnsAreBounded(env: Env, issue: Issue)
    ensures var (exit, trace) := Attempt(env, issue);
            && TurnsRun(trace) <= Max(1, env.maxTurns)
            && (exit == Normal(MaxTurnsReached) ==> TurnsRun(trace) == Max(1, env.maxTurns))
  {
    var opening := [CreateWorkspace, BeforeRun, StartSession];
    assert opening[1..] == [BeforeRun, StartSession] && opening[1..][1..] == [StartSession];
    if Started(env) {
      var (exit, effects) := TurnLoop(env, issue, 1);
      var cleanup := Clean(env, exit).1;
      LoopTurns(env, issue, 1);
      TurnsRunAppend(opening + effects, cleanup);
      TurnsRunAppend(opening, effects);
      assert [StopSession, AfterRun][1..] == [AfterRun];
    } else {
      TurnsRunAppend(opening, [AfterRun]);
      assert opening + [AfterRun] == [CreateWorkspace, BeforeRun, StartSession, AfterRun];
      assert [CreateWorkspace, BeforeRun][1..] == [BeforeRun];
    }
  }

  /**
    The task prompt goes to turn 1 and nowhere else; turn k + 1 is prompted only for an issue that the refresh after
    turn k returned active, not terminal and routable, and only up to max_turns; a turn runs on the prompt just built,
    for the same issue; a refresh follows its turn and asks for its issue.
   */
  ghost predicate Earned(env: Env, issue: Issue, trace: seq<Effect>, i: nat)
    requires i < |trace|
  {
    var e := trace[i];
    && (e.Prompt? ==> e.turn >= 1 && e.isTask == (e.turn == 1))
    && (e.Prompt? && e.turn == 1 ==> e.issue == issue)
    && (e.Prompt? && e.turn > 1 ==> ClearedFor(env, e.turn - 1, e.issue) && e.turn <= env.maxTurns)
    && (e.RunTurn? ==> i > 0 && trace[i - 1] == Prompt(e.turn, e.turn == 1, e.issue))
    && (e.Refresh? ==> i > 0 && trace[i - 1].RunTurn? && e.id == trace[i - 1].issue.id)
  }

  lemma TurnsAreEarned(env: Env, issue: Issue, i: nat)
    requires i < |Attempt(env, issue).1|
    ensures Earned(env, issue, Attempt(env, issue).1, i)
  {
    if Started(env) {
      var (exit, effects) := TurnLoop(env, issue, 1);
      if 3 <= i < 3 + |effects| {
        EffectIsEarned(env, issue, effects, i - 3);
      }
      EarnedInside(env, issue, effects, Clean(env, exit).1, i);
    }
  }

  lemma EarnedInside(env: Env, issue: Issue, effects: seq<Effect>, cleanup: seq<Effect>, i: nat)
    requires forall k :: 0 <= k < |cleanup| ==> !TurnEffect(cleanup[k])
    requires i < 3 + |effects| + |cleanup|
    requires 3 <= i < 3 + |effects| ==> Earned(env, issue, effects, i - 3)
    ensures Earned(env, issue, [CreateWorkspace, BeforeRun, StartSession] + effects + cleanup, i)
  {
    var trace := [CreateWorkspace, BeforeRun, StartSession] + effects + cleanup;
    if 3 <= i < 3 + |effects| {
      assert trace[i] == effects[i - 3];
      if i > 3 { assert trace[i - 1] == effects[i - 4]; }
    } else {
      assert !TurnEffect(trace[i]);
    }
  }

  lemma EffectIsEarned(env: Env, issue: Issue, effects: seq<Effect>, i: nat)
    requires effects == TurnLoop(env, issue, 1).1 && i < |effects|
    ensures Earned(env, issue, effects, i)
  {
    LoopInPlace(env, issue, 1, i);
    if i > 0 { LoopInPlace(env, issue, 1, i - 1); }
  }

  // ---- What decides the outcome ----

  /** Turn `k` went well, and its refresh leaves the issue fit for another, which the bound allows. */
  predicate Continues(env: Env, k: nat)
  {
    var t := env.turns(k);
    && t.promptOk && t.turn == Fine && t.refresh.Issues? && t.refresh.issues != []
    && var issue := t.refresh.issues[0];
       && t.config.IsActive(issue.state) && !t.config.IsTerminal(issue.state)
       && issue.dispatchable && HasLabels(issue, t.config.requiredLabels)
       && k < env.maxTurns
  }

  ghost predicate LastTurn(env: Env, first: nat, k: nat)
  {
    first <= k && !Continues(env, k) && forall j :: first <= j < k ==> Continues(env, j)
  }

  /** The turns end with `exit` because of what turn `k` met, the first obstacle in the order of the source. */
  predicate EndsBecause(env: Env, k: nat, exit: Exit)
  {
    var t := env.turns(k);
    if !t.promptOk then exit == Failed(PromptError)
    else if t.turn == Error then exit == Failed(TurnError)
    else if t.turn == Cancel || t.refresh == RefreshCancel then exit == Cancelled
    else if t.refresh == RefreshError then exit == Failed(RefreshFailed)
    else if t.refresh.issues == [] then exit == Normal(IssueMissing)
    else
      var issue := t.refresh.issues[0];
      if !t.config.IsActive(issue.state) || t.config.IsTerminal(issue.state) then exit == Normal(StateInactive)
      else if !issue.dispatchable || !HasLabels(issue, t.config.requiredLabels) then exit == Normal(NotRoutable)
      else exit == Normal(MaxTurnsReached)
  }

  /** Prompt, turn and refresh, as far as the last turn gets. */
  function StepsOf(t: TurnEnv): nat { if !t.promptOk then 1 else if t.turn != Fine then 2 else 3 }

  lemma {:induction false} LoopEndsBecause(env: Env, issue: Issue, first: nat, k: nat)
    requires LastTurn(env, first, k)
    ensures var (exit, effects) := TurnLoop(env, issue, first);
            EndsBecause(env, k, exit) && |effects| == 3 * (k - first) + StepsOf(env.turns(k))
    decreases k - first
  {
    if first < k {
      assert Continues(env, first);
      LoopEndsBecause(env, env.turns(first).refresh.issues[0], first + 1, k);
    }
  }

  /** There is one, within max_turns. */
  lemma {:induction false} SomeTurnIsLast(env: Env, first: nat) returns (k: nat)
    ensures LastTurn(env, first, k) && k <= Max(first, env.maxTurns)
    decreases if first < env.maxTurns then env.maxTurns - first else 0
  {
    if Continues(env, first) {
      k := SomeTurnIsLast(env, first + 1);
    } else {
      k := first;
    }
  }

  /**
    An attempt that starts a session takes complete turns up to the first one that does not continue; that turn alone
    decides the outcome. A cancelled cleanup replaces it.
   */
  lemma LastTurnDecides(env: Env, issue: Issue, k: nat)
    requires Started(env) && LastTurn(env, 1, k)
    ensures var (exit, trace) := Attempt(env, issue);
            && (if env.stop == Cancel || env.afterRun == Cancel then exit == Cancelled else EndsBecause(env, k, exit))
            && |trace| == 3 * k + StepsOf(env.turns(k)) + if env.stop == Cancel then 1 else 2
  {
    LoopEndsBecause(env, issue, 1, k);
  }

  /** An attempt that starts none fails with the step that failed, unless that step or its cleanup is cancelled. */
  lemma FailedStartDecides(env: Env, issue: Issue)
    requires !Started(env)
    ensures var exit := Attempt(env, issue).0;
            && (exit == Failed(WorkspaceError) <==> env.workspace == Error)
            && (exit == Failed(BeforeRunError) <==> env.workspace == Fine && env.beforeRun == Error)
            && (exit == Failed(StartupError) <==> && env.workspace == Fine && env.beforeRun == Fine
                                                  && env.start == Error && env.afterRun != Cancel)
            && (exit.Failed? || exit.Cancelled?)
  {
  }
}
