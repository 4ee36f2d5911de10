/** `on_exceeded = "raise"` against `"stop"`, on the same query and the same sub-model. */
module RecursionModes {
  import opened Numbers
  import opened Chunker
  import opened Recursion

  function Raising(env: Env): Env { env.(budget := env.budget.(raises := true)) }

  /** Where the stopping run has no stop the two agree; else the raising one ended at the first stop. */
  ghost predicate Mirrors<T>(stopping: (T, Ledger), raising: (T, Ledger))
  {
    && (stopping.1.stops == [] ==> raising == stopping)
    && (stopping.1.stops != [] ==> RaisedAtFirstStop(stopping.1, raising.1))
  }

  ghost predicate RaisedAtFirstStop(stopping: Ledger, raising: Ledger)
  {
    && stopping.stops != []
    && raising.raised && raising.stops == stopping.stops[..1]
    && raising.sent <= stopping.sent
  }

  /** A run of a stopping query that has recorded nothing yet. */
  ghost predicate Clean(env: Env, l: Ledger)
  {
    env.budget.Valid() && !env.budget.raises && l.stops == [] && !l.raised
  }

  lemma LaterStopsDoNotMatter(env: Env, l: Ledger, l': Ledger, raising: Ledger)
    requires RaisedAtFirstStop(l, raising) && Extends(env, l, l')
    ensures RaisedAtFirstStop(l', raising)
  {
    assert l'.stops[..1] == l.stops[..1];
  }

  lemma SameMirrors<T>(a: (T, Ledger), b: (T, Ledger), a': (T, Ledger), b': (T, Ledger))
    requires Mirrors(a, b) && a' == a && b' == b
    ensures Mirrors(a', b')
  {
  }

  lemma AskMirrors(env: Env, body: string, at: nat, depth: nat, kind: Kind, l: Ledger)
    requires Clean(env, l)
    ensures Mirrors(AskModel(env, body, at, depth, kind, l), AskModel(Raising(env), body, at, depth, kind, l))
    ensures !AskModel(env, body, at, depth, kind, l).1.raised
  {
  }

  lemma {:induction false} ReducePiecesMirror(env: Env, pieces: seq<Chunk>, depth: nat, outs: seq<string>, l: Ledger)
    requires Clean(env, l) && depth <= env.budget.maxDepth
    ensures var (stopped, all, l') := ReducePieces(env, pieces, depth, outs, l);
            var (stopped2, all2, m') := ReducePieces(Raising(env), pieces, depth, outs, l);
            && Mirrors(((stopped, all), l'), ((stopped2, all2), m'))
            && (m'.raised ==> stopped2)
    decreases |pieces|
  {
    if pieces != [] && BlockedBy(env, l, EstimateTokens(pieces[0].text)).None? {
      var (answer, asked) := AskModel(env, pieces[0].text, 0, depth, Reduce, l);
      AskMirrors(env, pieces[0].text, 0, depth, Reduce, l);
      if asked.stops == [] {
        ReducePiecesMirror(env, pieces[1..], depth, outs + [answer], asked);
      } else {
        ReducePiecesExtends(env, pieces[1..], depth, outs + [answer], asked);
        LaterStopsDoNotMatter(env, asked, ReducePieces(env, pieces, depth, outs, l).2,
                              AskModel(Raising(env), pieces[0].text, 0, depth, Reduce, l).1);
      }
    }
  }

  /** A pass that noted a stop: raising has ended in it, stopping goes on and forgets nothing. */
  lemma StoppedPassMirrors(env: Env, body: string, depth: nat, rounds: nat, pass: (bool, seq<string>, Ledger),
                           raising: (bool, seq<string>, Ledger))
    requires env.budget.Valid() && depth <= env.budget.maxDepth
    requires pass.2.stops != [] && RaisedAtFirstStop(pass.2, raising.2) && raising.0
    ensures Mirrors(AfterPass(env, body, depth, rounds, pass), AfterPass(Raising(env), body, depth, rounds, raising))
  {
    if !pass.0 {
      ReduceExtends(env, env.merge(pass.1, depth), depth, rounds, pass.2);
      LaterStopsDoNotMatter(env, pass.2, AfterPass(env, body, depth, rounds, pass).1, raising.2);
    }
  }

  lemma RoundMirrors(env: Env, body: string, depth: nat, rounds: nat, l: Ledger)
    requires Clean(env, l) && EstimateTokens(body) > env.budget.maxChunkTokens && rounds > 0
    requires var pieces := ChunkText(body, env.budget.MaxChunkChars(), 0, Auto).value;
             Mirrors(AfterPass(env, body, depth, rounds - 1, ReducePieces(env, pieces, depth, [], l)),
                     AfterPass(Raising(env), body, depth, rounds - 1, ReducePieces(Raising(env), pieces, depth, [], l)))
    ensures Mirrors(ReduceToBudget(env, body, depth, rounds, l), ReduceToBudget(Raising(env), body, depth, rounds, l))
  {
    var pieces := ChunkText(body, env.budget.MaxChunkChars(), 0, Auto).value;
    ReduceIsPassAndAfter(env, body, depth, rounds, l);
    ReduceIsPassAndAfter(Raising(env), body, depth, rounds, l);
    SameMirrors(AfterPass(env, body, depth, rounds - 1, ReducePieces(env, pieces, depth, [], l)),
                AfterPass(Raising(env), body, depth, rounds - 1, ReducePieces(Raising(env), pieces, depth, [], l)),
                ReduceToBudget(env, body, depth, rounds, l), ReduceToBudget(Raising(env), body, depth, rounds, l));
  }

  lemma {:induction false} ReduceMirrors(env: Env, body: string, depth: nat, rounds: nat, l: Ledger)
    requires Clean(env, l) && depth <= env.budget.maxDepth
    ensures Mirrors(ReduceToBudget(env, body, depth, rounds, l), ReduceToBudget(Raising(env), body, depth, rounds, l))
    decreases rounds, 0
  {
    if EstimateTokens(body) > env.budget.maxChunkTokens && rounds > 0 {
      var pieces := ChunkText(body, env.budget.MaxChunkChars(), 0, Auto).value;
      ReducePiecesMirror(env, pieces, depth, [], l);
      ReducePiecesExtends(env, pieces, depth, [], l);
      PassMirrors(env, body, depth, rounds - 1, ReducePieces(env, pieces, depth, [], l),
                  ReducePieces(Raising(env), pieces, depth, [], l));
      RoundMirrors(env, body, depth, rounds, l);
    }
  }

  lemma {:induction false} PassMirrors(env: Env, body: string, depth: nat, rounds: nat,
                                       pass: (bool, seq<string>, Ledger), raising: (bool, seq<string>, Ledger))
    requires env.budget.Valid() && !env.budget.raises && depth <= env.budget.maxDepth && !pass.2.raised
    requires Mirrors(((pass.0, pass.1), pass.2), ((raising.0, raising.1), raising.2))
    requires raising.2.raised ==> raising.0
    ensures Mirrors(AfterPass(env, body, depth, rounds, pass), AfterPass(Raising(env), body, depth, rounds, raising))
    decreases rounds, 2
  {
    if pass.2.stops != [] {
      StoppedPassMirrors(env, body, depth, rounds, pass, raising);
    } else {
      CleanPassMirrors(env, body, depth, rounds, pass);
    }
  }

  lemma {:induction false} CleanPassMirrors(env: Env, body: string, depth: nat, rounds: nat,
                                            pass: (bool, seq<string>, Ledger))
    requires Clean(env, pass.2) && depth <= env.budget.maxDepth
    ensures Mirrors(AfterPass(env, body, depth, rounds, pass), AfterPass(Raising(env), body, depth, rounds, pass))
    decreases rounds, 1
  {
    var candidate := env.merge(pass.1, depth);
    if !pass.0 && candidate != "" && |candidate| < |body| {
      ReduceMirrors(env, candidate, depth, rounds, pass.2);
    }
  }

  /** The two modes split alike. */
  lemma SameTree(env: Env, body: string, depth: nat)
    requires env.budget.Valid()
    ensures Raising(env).budget.Valid()
    ensures IsLeaf(Raising(env).budget, body, depth) == IsLeaf(env.budget, body, depth)
    ensures Split(Raising(env).budget, body) == Split(env.budget, body)
  {
  }

  lemma FinishMirrors(env: Env, depth: nat, stopping: (seq<string>, Ledger), raising: (seq<string>, Ledger))
    requires env.budget.Valid() && !env.budget.raises && depth <= env.budget.maxDepth
    requires Mirrors(stopping, raising) && !stopping.1.raised
    ensures Mirrors(Finish(env, depth, stopping), Finish(Raising(env), depth, raising))
  {
    var merged := env.merge(stopping.0, depth);
    if stopping.1.stops == [] {
      ReduceMirrors(env, merged, depth, MAX_REDUCE_ROUNDS, stopping.1);
    } else {
      ReduceExtends(env, merged, depth, MAX_REDUCE_ROUNDS, stopping.1);
      LaterStopsDoNotMatter(env, stopping.1, Finish(env, depth, stopping).1, raising.1);
    }
  }

  lemma BranchMirrors(env: Env, body: string, at: nat, depth: nat, l: Ledger, pieces: seq<Chunk>, start: Ledger)
    requires Clean(env, l) && depth < env.budget.maxDepth && !IsLeaf(env.budget, body, depth)
    requires pieces == Split(env.budget, body) && start == Begin(l, depth, |pieces|)
    requires !SolvePieces(env, pieces, at, depth, [], start).1.raised
    requires Mirrors(SolvePieces(env, pieces, at, depth, [], start),
                     SolvePieces(Raising(env), pieces, at, depth, [], start))
    ensures Mirrors(Solve(env, body, at, depth, l), Solve(Raising(env), body, at, depth, l))
  {
    SameTree(env, body, depth);
    FinishedMirrors(env, depth, SolvePieces(env, pieces, at, depth, [], start),
                    SolvePieces(Raising(env), pieces, at, depth, [], start),
                    Solve(env, body, at, depth, l), Solve(Raising(env), body, at, depth, l));
  }

  lemma FinishedMirrors(env: Env, depth: nat, stopping: (seq<string>, Ledger), raising: (seq<string>, Ledger),
                        stopped: (string, Ledger), raised: (string, Ledger))
    requires env.budget.Valid() && !env.budget.raises && depth <= env.budget.maxDepth
    requires Mirrors(stopping, raising) && !stopping.1.raised
    requires stopped == Finish(env, depth, stopping) && raised == Finish(Raising(env), depth, raising)
    ensures Mirrors(stopped, raised)
  {
    FinishMirrors(env, depth, stopping, raising);
  }

  lemma {:induction false} SolveMirrors(env: Env, body: string, at: nat, depth: nat, l: Ledger)
    requires Clean(env, l) && depth <= env.budget.maxDepth
    ensures Mirrors(Solve(env, body, at, depth, l), Solve(Raising(env), body, at, depth, l))
    decreases env.budget.maxDepth - depth, 0
  {
    if IsLeaf(env.budget, body, depth) {
      AskMirrors(env, body, at, depth, Leaf, l.(depthReached := Max(l.depthReached, depth)));
    } else {
      var pieces := Split(env.budget, body);
      var start := Begin(l, depth, |pieces|);
      PiecesMirror(env, pieces, at, depth, [], start);
      SolvePiecesExtends(env, pieces, at, depth, [], start);
      BranchMirrors(env, body, at, depth, l, pieces, start);
    }
  }

  lemma {:induction false} PiecesMirror(env: Env, pieces: seq<Chunk>, at: nat, depth: nat, answers: seq<string>,
                                        l: Ledger)
    requires Clean(env, l) && depth < env.budget.maxDepth
    ensures Mirrors(SolvePieces(env, pieces, at, depth, answers, l),
                    SolvePieces(Raising(env), pieces, at, depth, answers, l))
    decreases env.budget.maxDepth - depth - 1, |pieces| + 1
  {
    if pieces != [] && BlockedBy(env, l, 0).None? {
      var head := at + pieces[0].start;
      SolveMirrors(env, pieces[0].text, head, depth + 1, l);
      SolveExtends(env, pieces[0].text, head, depth + 1, l);
      var (answer, solved) := Solve(env, pieces[0].text, head, depth + 1, l);
      if solved.stops == [] {
        PiecesMirror(env, pieces[1..], at, depth, answers + [answer], solved);
      } else {
        SolvePiecesExtends(env, pieces[1..], at, depth, answers + [answer], solved);
        LaterStopsDoNotMatter(env, solved, SolvePieces(env, pieces, at, depth, answers, l).1,
                              Solve(Raising(env), pieces[0].text, head, depth + 1, l).1);
      }
    }
  }

  /**
    Raising reports exactly what stopping would have: it raises if and only if the stopping query is partial, with the
    first stop of that query as its reason and a prefix of its calls made; otherwise the two runs are the same.
   */
  lemma RaisesIffPartial(env: Env, payload: string)
    requires env.budget.Valid() && !env.budget.raises
    ensures var stopping, raising := RecursiveQuery(env, payload), RecursiveQuery(Raising(env), payload);
            && (raising.1.raised <==> stopping.1.stops != [])
            && (raising.1.raised ==> raising.1.stops == stopping.1.stops[..1] && raising.1.sent <= stopping.1.sent)
            && (!raising.1.raised ==> raising == stopping)
  {
    if payload != "" {
      SolveMirrors(env, payload, 0, 0, EMPTY);
      SolveExtends(env, payload, 0, 0, EMPTY);
    }
  }
}
