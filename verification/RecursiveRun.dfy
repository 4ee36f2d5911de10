/**
  One run of `recursive_query` (src/symphony/rlm/recursive.py) as the source writes it: closures that share a mutable
  ledger. Each method is proved equal to the function of module Recursion with the same name.
 */
module RecursiveRuns {
  import opened Numbers
  import opened Options
  import opened Chunker
  import R = Recursion

  class BudgetLedger {
    const env: R.Env
    var calls: nat
    var tokens: nat
    var depthReached: nat
    var chunks: nat
    var stops: seq<R.Reason>
    /** History of the contexts sent; the source keeps a bounded trace of them. */
    ghost var sent: seq<R.Call>
    /** `BudgetExceeded` has been raised; every caller returns at once. */
    var raised: bool

    ghost function Now(): R.Ledger
      reads this
    {
      R.Ledger(calls, tokens, depthReached, chunks, stops, sent, raised)
    }

    constructor (env: R.Env)
      ensures this.env == env && Now() == R.EMPTY
    {
      this.env := env;
      calls, tokens, depthReached, chunks := 0, 0, 0, 0;
      stops, sent, raised := [], [], false;
    }

    method Note(reason: R.Reason)
      modifies this
      ensures Now() == R.Note(env, old(Now()), reason)
    {
      if reason !in stops {
        stops := stops + [reason];
      }
      if env.budget.raises {
        raised := true;
      }
    }

    method BlockedBy(size: nat) returns (reason: Option<R.Reason>)
      ensures reason == R.BlockedBy(env, Now(), size)
    {
      if calls >= env.budget.maxCalls {
        return Some(R.MaxCalls);
      }
      if tokens + size > env.budget.maxTotalTokens {
        return Some(R.MaxTotalTokens);
      }
      return None;
    }

    method Spend(size: nat, depth: nat)
      modifies this
      ensures Now() == old(Now()).(calls := old(calls) + 1, tokens := old(tokens) + size,
                                   depthReached := Max(old(depthReached), depth))
    {
      calls := calls + 1;
      tokens := tokens + size;
      depthReached := Max(depthReached, depth);
    }

    /** The source's `leaf`. */
    method AskModel(text: string, ghost at: nat, depth: nat, kind: R.Kind) returns (answer: string)
      modifies this
      ensures (answer, Now()) == R.AskModel(env, text, at, depth, kind, old(Now()))
    {
      var body := text;
      var limit := env.budget.MaxChunkChars();
      if |body| > limit {
        body := body[..limit];
        Note(R.MaxDepthTruncated);
        if raised {
          return "";
        }
      } else if raised {
        return "";
      }
      var size := EstimateTokens(body);
      var blocked := BlockedBy(size);
      if blocked.Some? {
        Note(blocked.value);
        return "";
      }
      answer := env.model(calls, body);
      Spend(size, depth);
      sent := sent + [R.Call(kind, at, depth, body, |text| - |body|)];
    }

    method ReduceToBudget(text: string, depth: nat) returns (body: string)
      requires env.budget.Valid()
      modifies this
      ensures (body, Now()) == R.ReduceToBudget(env, text, depth, R.MAX_REDUCE_ROUNDS, old(Now()))
    {
      body := text;
      ghost var whole := R.ReduceToBudget(env, text, depth, R.MAX_REDUCE_ROUNDS, Now());
      for round := 0 to R.MAX_REDUCE_ROUNDS
        invariant whole == R.ReduceToBudget(env, body, depth, R.MAX_REDUCE_ROUNDS - round, Now())
      {
        if EstimateTokens(body) <= env.budget.maxChunkTokens {
          return;
        }
        R.ReduceIsPassAndAfter(env, body, depth, R.MAX_REDUCE_ROUNDS - round, Now());
        var pieces := MakeChunks(body, env.budget.MaxChunkChars(), 0, Auto);
        var stopped, outs := ReducePieces(pieces.value, depth);
        if stopped {
          return;
        }
        var candidate := env.merge(outs, depth);
        if candidate == "" || |candidate| >= |body| {
          Note(R.ReduceNotConverging);
          return if candidate == "" then body else candidate;
        }
        body := candidate;
      }
      if EstimateTokens(body) > env.budget.maxChunkTokens {
        Note(R.ReduceRoundsExhausted);
      }
    }

    /** The inner loop of `reduce_to_budget`. */
    method ReducePieces(pieces: seq<Chunk>, depth: nat) returns (stopped: bool, outs: seq<string>)
      modifies this
      ensures (stopped, outs, Now()) == R.ReducePieces(env, pieces, depth, [], old(Now()))
    {
      outs := [];
      for i := 0 to |pieces|
        invariant R.ReducePieces(env, pieces, depth, [], old(Now()))
               == R.ReducePieces(env, pieces[i..], depth, outs, Now())
      {
        assert pieces[i..][0] == pieces[i] && pieces[i..][1..] == pieces[i + 1..];
        var blocked := BlockedBy(EstimateTokens(pieces[i].text));
        if blocked.Some? {
          Note(blocked.value);
          return true, outs;
        }
        var out := AskModel(pieces[i].text, 0, depth, R.Reduce);
        if raised {
          return true, outs;
        }
        outs := outs + [out];
      }
      stopped := false;
    }

    method Solve(body: string, ghost at: nat, depth: nat) returns (answer: string)
      requires env.budget.Valid()
      modifies this
      ensures (answer, Now()) == R.Solve(env, body, at, depth, old(Now()))
      decreases Max(env.budget.maxDepth - depth, 0), 0
    {
      depthReached := Max(depthReached, depth);
      if R.IsLeaf(env.budget, body, depth) {
        answer := AskModel(body, at, depth, R.Leaf);
        return;
      }
      R.SplitTiles(env.budget, body);
      var split := MakeChunks(body, R.LevelChars(|body|, env.budget), env.budget.OverlapChars(), Auto);
      var pieces := split.value;
      chunks := chunks + |pieces|;
      var answers := SolvePieces(pieces, at, depth);
      if raised {
        return "";
      }
      answer := ReduceToBudget(env.merge(answers, depth), depth);
    }

    /** The loop of `solve`. */
    method SolvePieces(pieces: seq<Chunk>, ghost at: nat, depth: nat) returns (answers: seq<string>)
      requires env.budget.Valid() && depth < env.budget.maxDepth
      modifies this
      ensures (answers, Now()) == R.SolvePieces(env, pieces, at, depth, [], old(Now()))
      decreases env.budget.maxDepth - depth - 1, 2
    {
      answers := [];
      ghost var whole := R.SolvePieces(env, pieces, at, depth, [], Now());
      for i := 0 to |pieces|
        invariant whole == R.SolvePieces(env, pieces[i..], at, depth, answers, Now())
      {
        OnePieceSolved(env, pieces, i, at, depth, answers, Now());
        var part := SolvePiece(pieces[i], at, depth);
        if part.None? {
          return;
        }
        answers := answers + [part.value];
      }
    }

    /** One round of it; None ends the loop. */
    method SolvePiece(piece: Chunk, ghost at: nat, depth: nat) returns (part: Option<string>)
      requires env.budget.Valid() && depth < env.budget.maxDepth
      modifies this
      ensures var l := old(Now());
              var blocked := R.BlockedBy(env, l, 0);
              if blocked.Some? then part == None && Now() == R.Note(env, l, blocked.value)
              else
                var (answer, solved) := R.Solve(env, piece.text, at + piece.start, depth + 1, l);
                Now() == solved && part == if solved.raised then None else Some(answer)
      decreases env.budget.maxDepth - depth - 1, 1
    {
      var blocked := BlockedBy(0);
      if blocked.Some? {
        Note(blocked.value);
        return None;
      }
      var answer := Solve(piece.text, at + piece.start, depth + 1);
      return if raised then None else Some(answer);
    }
  }

  lemma FirstPieceSolved(env: R.Env, pieces: seq<Chunk>, first: Chunk, later: seq<Chunk>, at: nat, depth: nat,
                       answers: seq<string>, l: R.Ledger)
    requires env.budget.Valid() && depth < env.budget.maxDepth
    requires pieces != [] && pieces[0] == first && pieces[1..] == later
    ensures R.SolvePieces(env, pieces, at, depth, answers, l)
         == var blocked := R.BlockedBy(env, l, 0);
            if blocked.Some? then (answers, R.Note(env, l, blocked.value))
            else
              var (answer, solved) := R.Solve(env, first.text, at + first.start, depth + 1, l);
              if solved.raised then (answers, solved)
              else R.SolvePieces(env, later, at, depth, answers + [answer], solved)
  {
  }

  /** The loop of `solve`, one piece on. */
  lemma OnePieceSolved(env: R.Env, pieces: seq<Chunk>, i: nat, at: nat, depth: nat, answers: seq<string>, l: R.Ledger)
    requires env.budget.Valid() && depth < env.budget.maxDepth && i < |pieces|
    ensures R.SolvePieces(env, pieces[i..], at, depth, answers, l)
         == var blocked := R.BlockedBy(env, l, 0);
            if blocked.Some? then (answers, R.Note(env, l, blocked.value))
            else
              var (answer, solved) := R.Solve(env, pieces[i].text, at + pieces[i].start, depth + 1, l);
              if solved.raised then (answers, solved)
              else R.SolvePieces(env, pieces[i + 1..], at, depth, answers + [answer], solved)
  {
    assert pieces[i..][1..] == pieces[i + 1..];
    FirstPieceSolved(env, pieces[i..], pieces[i], pieces[i + 1..], at, depth, answers, l);
  }

  datatype Result = Result(
    answer: string,
    calls: nat,
    tokens: nat,
    depthReached: nat,
    chunks: nat,
    stops: seq<R.Reason>,
    partial: bool)

  /** None is `BudgetExceeded`. */
  method RecursiveQuery(env: R.Env, payload: string) returns (result: Option<Result>)
    requires env.budget.Valid()
    ensures var (answer, l) := R.RecursiveQuery(env, payload);
            && (result.None? <==> l.raised)
            && (result.Some? ==>
                  var r := result.value;
                  && r.answer == answer && r.calls == |l.sent| && r.tokens == R.TokensSent(l.sent)
                  && r.depthReached == l.depthReached && r.chunks == l.chunks
                  && r.stops == l.stops && (r.partial <==> l.stops != []))
  {
    R.QueryStaysWithinBudget(env, payload);
    var ledger := new BudgetLedger(env);
    var answer := "";
    if payload != "" {
      answer := ledger.Solve(payload, 0, 0);
    }
    if ledger.raised {
      return None;
    }
    return Some(Result(answer, ledger.calls, ledger.tokens, ledger.depthReached, ledger.chunks, ledger.stops,
                       ledger.stops != []));
  }
}
