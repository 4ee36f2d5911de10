/** Budgeted recursion over an oversized payload (src/symphony/rlm/recursive.py). */
module Recursion {
  import opened Numbers
  import opened Options
  import opened Chunker

  datatype Budget = Budget(
    maxDepth: nat,
    maxChunkTokens: nat,
    maxCalls: nat,
    maxTotalTokens: nat,
    fanout: nat,
    overlapTokens: nat,
    raises: bool)
  {
    /** What the constructor of the source insists on. */
    predicate Valid() { maxChunkTokens > 0 && maxCalls > 0 && maxTotalTokens > 0 && fanout >= 2 }

    function MaxChunkChars(): nat { maxChunkTokens * CHARS_PER_TOKEN }

    function OverlapChars(): int { Min(overlapTokens * CHARS_PER_TOKEN, MaxChunkChars() - 1) }
  }

  /** The sub-model may answer anything, and differently at every call; the combiner is pure. */
  datatype Env = Env(budget: Budget, model: (nat, string) -> string, merge: (seq<string>, nat) -> string)

  datatype Reason = MaxDepthTruncated | MaxCalls | MaxTotalTokens | ReduceNotConverging | ReduceRoundsExhausted

  datatype Kind = Leaf | Reduce

  /** History: one context sent to the sub-model. A leaf's context is the payload from position `at` on. */
  datatype Call = Call(kind: Kind, at: nat, depth: nat, context: string, dropped: nat)

  /** `raised` is set once `BudgetExceeded` is on its way up. */
  datatype Ledger = Ledger(
    calls: nat,
    tokens: nat,
    depthReached: nat,
    chunks: nat,
    stops: seq<Reason>,
    sent: seq<Call>,
    raised: bool)

  const EMPTY := Ledger(0, 0, 0, 0, [], [], false)

  const MAX_REDUCE_ROUNDS := 3

  function Note(env: Env, l: Ledger, reason: Reason): Ledger
  {
    l.(stops := if reason in l.stops then l.stops else l.stops + [reason], raised := l.raised || env.budget.raises)
  }

  function BlockedBy(env: Env, l: Ledger, tokens: nat): Option<Reason>
  {
    if l.calls >= env.budget.maxCalls then Some(MaxCalls)
    else if l.tokens + tokens > env.budget.maxTotalTokens then Some(MaxTotalTokens)
    else None
  }

  function Spend(l: Ledger, call: Call): Ledger
  {
    l.(calls := l.calls + 1,
       tokens := l.tokens + EstimateTokens(call.context),
       depthReached := Max(l.depthReached, call.depth),
       sent := l.sent + [call])
  }

  function LevelChars(length: nat, budget: Budget): nat
    requires budget.Valid()
  {
    Max(budget.MaxChunkChars(), CeilDiv(length, budget.fanout))
  }

  function AskModel(env: Env, body: string, at: nat, depth: nat, kind: Kind, l: Ledger): (string, Ledger)
  {
    var limit := env.budget.MaxChunkChars();
    var cut := |body| > limit;
    var context := if cut then body[..limit] else body;
    var noted := if cut then Note(env, l, MaxDepthTruncated) else l;
    if noted.raised then ("", noted)
    else
      var blocked := BlockedBy(env, noted, EstimateTokens(context));
      if blocked.Some? then ("", Note(env, noted, blocked.value))
      else (env.model(noted.calls, context), Spend(noted, Call(kind, at, depth, context, |body| - |context|)))
  }

  /** One reduction pass; the flag says it was cut short. */
  function ReducePieces(env: Env, pieces: seq<Chunk>, depth: nat, outs: seq<string>, l: Ledger)
    : (bool, seq<string>, Ledger)
    decreases |pieces|
  {
    if pieces == [] then (false, outs, l)
    else
      var blocked := BlockedBy(env, l, EstimateTokens(pieces[0].text));
      if blocked.Some? then (true, outs, Note(env, l, blocked.value))
      else
        var (answer, asked) := AskModel(env, pieces[0].text, 0, depth, Reduce, l);
        if asked.raised then (true, outs, asked)
        else ReducePieces(env, pieces[1..], depth, outs + [answer], asked)
  }

  function ReduceToBudget(env: Env, body: string, depth: nat, rounds: nat, l: Ledger): (string, Ledger)
    requires env.budget.Valid()
    decreases rounds
  {
    if EstimateTokens(body) <= env.budget.maxChunkTokens then (body, l)
    else if rounds == 0 then (body, Note(env, l, ReduceRoundsExhausted))
    else
      var pieces := ChunkText(body, env.budget.MaxChunkChars(), 0, Auto).value;
      var (stopped, outs, passed) := ReducePieces(env, pieces, depth, [], l);
      if stopped then (body, passed)
      else
        var candidate := env.merge(outs, depth);
        if candidate == "" || |candidate| >= |body| then
          (if candidate == "" then body else candidate, Note(env, passed, ReduceNotConverging))
        else ReduceToBudget(env, candidate, depth, rounds - 1, passed)
  }

  /** The rounds that follow a pass. */
  function AfterPass(env: Env, body: string, depth: nat, rounds: nat, pass: (bool, seq<string>, Ledger))
    : (string, Ledger)
    requires env.budget.Valid()
  {
    var (stopped, outs, passed) := pass;
    if stopped then (body, passed)
    else
      var candidate := env.merge(outs, depth);
      if candidate == "" || |candidate| >= |body| then
        (if candidate == "" then body else candidate, Note(env, passed, ReduceNotConverging))
      else ReduceToBudget(env, candidate, depth, rounds, passed)
  }

  lemma ReduceIsPassAndAfter(env: Env, body: string, depth: nat, rounds: nat, l: Ledger)
    requires env.budget.Valid() && EstimateTokens(body) > env.budget.maxChunkTokens && rounds > 0
    ensures var pieces := ChunkText(body, env.budget.MaxChunkChars(), 0, Auto).value;
            var pass := ReducePieces(env, pieces, depth, [], l);
            ReduceToBudget(env, body, depth, rounds, l) == AfterPass(env, body, depth, rounds - 1, pass)
  {
  }

  predicate IsLeaf(budget: Budget, body: string, depth: nat)
  {
    EstimateTokens(body) <= budget.maxChunkTokens || depth >= budget.maxDepth
  }

  function Split(budget: Budget, body: string): seq<Chunk>
    requires budget.Valid()
  {
    ChunkText(body, LevelChars(|body|, budget), budget.OverlapChars(), Auto).value
  }

  /** A split body notes its depth and its pieces. */
  function Begin(l: Ledger, depth: nat, pieces: nat): Ledger
  {
    l.(depthReached := Max(l.depthReached, depth), chunks := l.chunks + pieces)
  }

  /** What is left of it once its pieces are solved. */
  function Finish(env: Env, depth: nat, solved: (seq<string>, Ledger)): (string, Ledger)
    requires env.budget.Valid()
  {
    if solved.1.raised then ("", solved.1)
    else ReduceToBudget(env, env.merge(solved.0, depth), depth, MAX_REDUCE_ROUNDS, solved.1)
  }

  function Solve(env: Env, body: string, at: nat, depth: nat, l: Ledger): (string, Ledger)
    requires env.budget.Valid()
    decreases Max(env.budget.maxDepth - depth, 0), 0
  {
    if IsLeaf(env.budget, body, depth) then
      AskModel(env, body, at, depth, Leaf, l.(depthReached := Max(l.depthReached, depth)))
    else
      var pieces := Split(env.budget, body);
      Finish(env, depth, SolvePieces(env, pieces, at, depth, [], Begin(l, depth, |pieces|)))
  }

  function SolvePieces(env: Env, pieces: seq<Chunk>, at: nat, depth: nat, answers: seq<string>, l: Ledger)
    : (seq<string>, Ledger)
    requires env.budget.Valid() && depth < env.budget.maxDepth
    decreases env.budget.maxDepth - depth - 1, |pieces| + 1
  {
    if pieces == [] then (answers, l)
    else
      var blocked := BlockedBy(env, l, 0);
      if blocked.Some? then (answers, Note(env, l, blocked.value))
      else
        var (answer, solved) := Solve(env, pieces[0].text, at + pieces[0].start, depth + 1, l);
        if solved.raised then (answers, solved)
        else SolvePieces(env, pieces[1..], at, depth, answers + [answer], solved)
  }

  function RecursiveQuery(env: Env, payload: string): (string, Ledger)
    requires env.budget.Valid()
  {
    if payload == "" then ("", EMPTY) else Solve(env, payload, 0, 0, EMPTY)
  }

  // ---- The budget is enforced ----

  function TokensSent(sent: seq<Call>): nat
  {
    if sent == [] then 0 else TokensSent(sent[..|sent| - 1]) + EstimateTokens(sent[|sent| - 1].context)
  }

  ghost predicate WithinBudget(env: Env, l: Ledger)
  {
    && l.calls == |l.sent| <= env.budget.maxCalls
    && l.tokens == TokensSent(l.sent) <= env.budget.maxTotalTokens
    && l.depthReached <= env.budget.maxDepth
    && forall i :: 0 <= i < |l.sent| ==> |l.sent[i].context| <= env.budget.MaxChunkChars()
  }

  /** The ledger stays within the budget and only grows: no call and no stop is ever forgotten. */
  ghost predicate Extends(env: Env, l: Ledger, l': Ledger)
  {
    && (WithinBudget(env, l) ==> WithinBudget(env, l'))
    && l.sent <= l'.sent
    && l.stops <= l'.stops
    && (l.raised ==> l'.raised)
    && (l'.raised && !l.raised ==> env.budget.raises && l'.stops != [])
    && l.depthReached <= l'.depthReached
  }

  lemma AskExtends(env: Env, body: string, at: nat, depth: nat, kind: Kind, l: Ledger)
    requires depth <= env.budget.maxDepth
    ensures Extends(env, l, AskModel(env, body, at, depth, kind, l).1)
  {
    var l' := AskModel(env, body, at, depth, kind, l).1;
    if l'.sent != l.sent {
      assert l'.sent[..|l.sent|] == l.sent;
    }
  }

  lemma {:induction false} ReducePiecesExtends(env: Env, pieces: seq<Chunk>, depth: nat, outs: seq<string>, l: Ledger)
    requires depth <= env.budget.maxDepth
    ensures Extends(env, l, ReducePieces(env, pieces, depth, outs, l).2)
    decreases |pieces|
  {
    if pieces != [] {
      var (answer, asked) := AskModel(env, pieces[0].text, 0, depth, Reduce, l);
      AskExtends(env, pieces[0].text, 0, depth, Reduce, l);
      ReducePiecesExtends(env, pieces[1..], depth, outs + [answer], asked);
    }
  }

  lemma {:induction false} ReduceExtends(env: Env, body: string, depth: nat, rounds: nat, l: Ledger)
    requires env.budget.Valid() && depth <= env.budget.maxDepth
    ensures Extends(env, l, ReduceToBudget(env, body, depth, rounds, l).1)
    decreases rounds
  {
    if EstimateTokens(body) > env.budget.maxChunkTokens && rounds > 0 {
      var pieces := ChunkText(body, env.budget.MaxChunkChars(), 0, Auto).value;
      var (stopped, outs, passed) := ReducePieces(env, pieces, depth, [], l);
      ReducePiecesExtends(env, pieces, depth, [], l);
      var candidate := env.merge(outs, depth);
      ReduceExtends(env, candidate, depth, rounds - 1, passed);
    }
  }

  lemma {:induction false} SolveExtends(env: Env, body: string, at: nat, depth: nat, l: Ledger)
    requires env.budget.Valid() && depth <= env.budget.maxDepth
    ensures var l' := Solve(env, body, at, depth, l).1; Extends(env, l, l') && l'.depthReached >= depth
    decreases env.budget.maxDepth - depth, 0
  {
    var reached := l.(depthReached := Max(l.depthReached, depth));
    if IsLeaf(env.budget, body, depth) {
      AskExtends(env, body, at, depth, Leaf, reached);
      ReachedFirst(env, l, 0, depth, reached, Solve(env, body, at, depth, l).1);
    } else {
      var pieces := Split(env.budget, body);
      var start := Begin(l, depth, |pieces|);
      var (answers, solved) := SolvePieces(env, pieces, at, depth, [], start);
      SolvePiecesExtends(env, pieces, at, depth, [], start);
      var merged := env.merge(answers, depth);
      ReduceExtends(env, merged, depth, MAX_REDUCE_ROUNDS, solved);
      var l' := Solve(env, body, at, depth, l).1;
      assert l' == if solved.raised then solved else ReduceToBudget(env, merged, depth, MAX_REDUCE_ROUNDS, solved).1;
      MaybeExtends(env, start, solved, l');
      ReachedFirst(env, l, |pieces|, depth, start, l');
    }
  }

  lemma MaybeExtends(env: Env, a: Ledger, b: Ledger, c: Ledger)
    requires Extends(env, a, b) && (c == b || Extends(env, b, c))
    ensures Extends(env, a, c)
  {
    if c != b {
      ExtendsTransitive(env, a, b, c);
    }
  }

  /** Noting the depth and the pieces first spends nothing. */
  lemma ReachedFirst(env: Env, l: Ledger, pieces: nat, depth: nat, start: Ledger, l': Ledger)
    requires depth <= env.budget.maxDepth && Extends(env, start, l')
    requires start == Begin(l, depth, pieces)
    ensures Extends(env, l, l') && l'.depthReached >= depth
  {
  }

  lemma ExtendsTransitive(env: Env, a: Ledger, b: Ledger, c: Ledger)
    requires Extends(env, a, b) && Extends(env, b, c)
    ensures Extends(env, a, c)
  {
  }

  lemma {:induction false} SolvePiecesExtends(
    env: Env, pieces: seq<Chunk>, at: nat, depth: nat, answers: seq<string>, l: Ledger)
    requires env.budget.Valid() && depth < env.budget.maxDepth
    ensures Extends(env, l, SolvePieces(env, pieces, at, depth, answers, l).1)
    decreases env.budget.maxDepth - depth - 1, |pieces| + 1
  {
    if pieces != [] && BlockedBy(env, l, 0).None? {
      var (answer, solved) := Solve(env, pieces[0].text, at + pieces[0].start, depth + 1, l);
      SolveExtends(env, pieces[0].text, at + pieces[0].start, depth + 1, l);
      SolvePiecesExtends(env, pieces[1..], at, depth, answers + [answer], solved);
    }
  }

  /** Whatever the sub-model answers, no bound is ever exceeded. */
  lemma QueryStaysWithinBudget(env: Env, payload: string)
    requires env.budget.Valid()
    ensures WithinBudget(env, RecursiveQuery(env, payload).1)
  {
    if payload != "" {
      SolveExtends(env, payload, 0, 0, EMPTY);
    }
  }

  // ---- Nothing is dropped silently ----

  /** Some leaf call sent the character at position `p`. */
  ghost predicate Covered(sent: seq<Call>, payload: string, p: nat)
  {
    exists i :: 0 <= i < |sent| && SendsPosition(sent[i], payload, p)
  }

  predicate SendsPosition(c: Call, payload: string, p: nat)
  {
    && c.kind == Leaf
    && c.at <= p < c.at + |c.context| <= |payload|
    && c.context == payload[c.at..c.at + |c.context|]
  }

  lemma CoveredGrows(sent: seq<Call>, sent': seq<Call>, payload: string, p: nat)
    requires sent <= sent' && Covered(sent, payload, p)
    ensures Covered(sent', payload, p)
  {
    var i :| 0 <= i < |sent| && SendsPosition(sent[i], payload, p);
    assert sent'[i] == sent[i];
  }

  lemma AskCovers(env: Env, payload: string, body: string, at: nat, depth: nat, l: Ledger, p: nat)
    requires at + |body| <= |payload| && body == payload[at..at + |body|]
    requires at <= p < at + |body| && AskModel(env, body, at, depth, Leaf, l).1.stops == []
    requires !l.raised
    ensures Covered(AskModel(env, body, at, depth, Leaf, l).1.sent, payload, p)
  {
    var l' := AskModel(env, body, at, depth, Leaf, l).1;
    assert |body| <= env.budget.MaxChunkChars();
    assert SendsPosition(l'.sent[|l.sent|], payload, p);
  }

  lemma {:induction false} SolveCovers(env: Env, payload: string, body: string, at: nat, depth: nat, l: Ledger, p: nat)
    requires env.budget.Valid() && depth <= env.budget.maxDepth
    requires at + |body| <= |payload| && body == payload[at..at + |body|]
    requires at <= p < at + |body| && !l.raised && Solve(env, body, at, depth, l).1.stops == []
    ensures Covered(Solve(env, body, at, depth, l).1.sent, payload, p)
    decreases env.budget.maxDepth - depth, 0
  {
    var reached := l.(depthReached := Max(l.depthReached, depth));
    if IsLeaf(env.budget, body, depth) {
      AskCovers(env, payload, body, at, depth, reached, p);
    } else {
      var pieces := Split(env.budget, body);
      var start := Begin(l, depth, |pieces|);
      var (answers, solved) := SolvePieces(env, pieces, at, depth, [], start);
      ReduceExtends(env, env.merge(answers, depth), depth, MAX_REDUCE_ROUNDS, solved);
      assert solved.stops == [];
      SplitTiles(env.budget, body);
      assert pieces != [] && pieces[0..] == pieces;
      PiecesCover(env, payload, body, pieces, at, depth, [], start, p, 0);
      CoveredGrows(solved.sent, Solve(env, body, at, depth, l).1.sent, payload, p);
    }
  }

  lemma SplitTiles(budget: Budget, body: string)
    requires budget.Valid()
    ensures budget.OverlapChars() < LevelChars(|body|, budget)
    ensures ChunksTile(Split(budget, body), body, LevelChars(|body|, budget), budget.OverlapChars())
  {
    ChunkTextTiles(body, LevelChars(|body|, budget), budget.OverlapChars(), Auto);
  }

  /** The k-th chunk, located in the payload. */
  lemma ChunkInPayload(env: Env, payload: string, body: string, at: nat, k: nat)
    requires env.budget.Valid() && k < |Split(env.budget, body)|
    requires at + |body| <= |payload| && body == payload[at..at + |body|]
    ensures var c := Split(env.budget, body)[k];
            && c.start <= BodyStart(Split(env.budget, body), k) < c.end <= |body|
            && |c.text| == c.end - c.start
            && c.text == payload[at + c.start..at + c.start + |c.text|]
  {
    SplitTiles(env.budget, body);
    ChunkIsSlice(Split(env.budget, body), k, body, LevelChars(|body|, env.budget), env.budget.OverlapChars());
    var c := Split(env.budget, body)[k];
    SliceOfSlice(payload, at, |body|, c.start, c.end);
  }

  lemma ChunkIsSlice(chunks: seq<Chunk>, k: nat, body: string, step: nat, overlap: nat)
    requires ChunksTile(chunks, body, step, overlap) && k < |chunks|
    ensures var c := chunks[k]; c.start <= BodyStart(chunks, k) < c.end <= |body| && c.text == body[c.start..c.end]
  {
    assert ChunkFits(chunks, k, body, step, overlap);
  }

  lemma SliceOfSlice(text: string, at: nat, n: nat, i: nat, j: nat)
    requires at + n <= |text| && i <= j <= n
    ensures text[at..at + n][i..j] == text[at + i..at + j]
  {
    var whole := text[at..at + n];
    forall k | 0 <= k < j - i ensures whole[i..j][k] == text[at + i..at + j][k] {
      assert whole[i..j][k] == whole[i + k] == text[at + i + k];
    }
  }

  /** `pieces` are the chunks from the k-th on; the ones before it are already behind. */
  lemma {:induction false} PiecesCover(env: Env, payload: string, body: string, pieces: seq<Chunk>, at: nat, depth: nat,
                                       answers: seq<string>, l: Ledger, p: nat, k: nat)
    requires env.budget.Valid() && depth < env.budget.maxDepth
    requires at + |body| <= |payload| && body == payload[at..at + |body|]
    requires !l.raised && SolvePieces(env, pieces, at, depth, answers, l).1.stops == []
    requires var chunks := Split(env.budget, body); k < |chunks| && pieces == chunks[k..]
    requires at + BodyStart(Split(env.budget, body), k) <= p < at + |body|
    ensures Covered(SolvePieces(env, pieces, at, depth, answers, l).1.sent, payload, p)
    decreases env.budget.maxDepth - depth - 1, |pieces| + 2
  {
    ChunkInPayload(env, payload, body, at, k);
    var answer, solved := FirstPieceCovers(env, payload, pieces, at, depth, answers, l, p);
    if p >= at + pieces[0].end {
      LaterPiece(env, body, pieces, k, p - at);
      PiecesCover(env, payload, body, pieces[1..], at, depth, answers + [answer], solved, p, k + 1);
    }
  }

  /** The first piece covers its own text, and the rest is still to be done. */
  lemma {:induction false} FirstPieceCovers(env: Env, payload: string, pieces: seq<Chunk>, at: nat, depth: nat,
                                            answers: seq<string>, l: Ledger, p: nat)
    returns (answer: string, solved: Ledger)
    requires env.budget.Valid() && depth < env.budget.maxDepth && pieces != [] && !l.raised
    requires SolvePieces(env, pieces, at, depth, answers, l).1.stops == []
    requires var c := pieces[0];
             at + c.start + |c.text| <= |payload| && c.text == payload[at + c.start..at + c.start + |c.text|]
    ensures !solved.raised
    ensures SolvePieces(env, pieces, at, depth, answers, l)
         == SolvePieces(env, pieces[1..], at, depth, answers + [answer], solved)
    ensures at + pieces[0].start <= p < at + pieces[0].start + |pieces[0].text| ==>
              Covered(SolvePieces(env, pieces, at, depth, answers, l).1.sent, payload, p)
    decreases env.budget.maxDepth - depth - 1, 1
  {
    var c := pieces[0];
    FirstPieceSolved(env, pieces, at, depth, answers, l);
    var head := Solve(env, c.text, at + c.start, depth + 1, l);
    answer, solved := head.0, head.1;
    if at + c.start <= p < at + c.start + |c.text| {
      SolveCovers(env, payload, c.text, at + c.start, depth + 1, l, p);
      CoveredGrows(solved.sent, SolvePieces(env, pieces, at, depth, answers, l).1.sent, payload, p);
    }
  }

  lemma LaterPiece(env: Env, body: string, pieces: seq<Chunk>, k: nat, p: nat)
    requires env.budget.Valid() && k < |Split(env.budget, body)| && pieces == Split(env.budget, body)[k..]
    requires pieces[0].end <= p < |body|
    ensures k + 1 < |Split(env.budget, body)| && pieces[1..] == Split(env.budget, body)[k + 1..]
    ensures BodyStart(Split(env.budget, body), k + 1) == pieces[0].end
  {
    SplitTiles(env.budget, body);
  }

  lemma FirstPieceSolved(env: Env, pieces: seq<Chunk>, at: nat, depth: nat, answers: seq<string>, l: Ledger)
    requires env.budget.Valid() && depth < env.budget.maxDepth && pieces != []
    requires !l.raised && SolvePieces(env, pieces, at, depth, answers, l).1.stops == []
    ensures var (answer, solved) := Solve(env, pieces[0].text, at + pieces[0].start, depth + 1, l);
            && solved.stops == [] && !solved.raised
            && SolvePieces(env, pieces, at, depth, answers, l)
               == SolvePieces(env, pieces[1..], at, depth, answers + [answer], solved)
            && solved.sent <= SolvePieces(env, pieces, at, depth, answers, l).1.sent
  {
    var (answer, solved) := Solve(env, pieces[0].text, at + pieces[0].start, depth + 1, l);
    SolveExtends(env, pieces[0].text, at + pieces[0].start, depth + 1, l);
    SolvePiecesExtends(env, pieces[1..], at, depth, answers + [answer], solved);
  }

  lemma {:induction false} ReduceFits(env: Env, body: string, depth: nat, rounds: nat, l: Ledger)
    requires env.budget.Valid() && depth <= env.budget.maxDepth
    requires !l.raised && ReduceToBudget(env, body, depth, rounds, l).1.stops == []
    ensures EstimateTokens(ReduceToBudget(env, body, depth, rounds, l).0) <= env.budget.maxChunkTokens
    decreases rounds
  {
    if EstimateTokens(body) > env.budget.maxChunkTokens && rounds > 0 {
      var pieces := ChunkText(body, env.budget.MaxChunkChars(), 0, Auto).value;
      var (stopped, outs, passed) := ReducePieces(env, pieces, depth, [], l);
      ReducePiecesExtends(env, pieces, depth, [], l);
      StoppedIsNoted(env, pieces, depth, [], l);
      var candidate := env.merge(outs, depth);
      ReduceExtends(env, candidate, depth, rounds - 1, passed);
      if !stopped && candidate != "" && |candidate| < |body| {
        ReduceFits(env, candidate, depth, rounds - 1, passed);
      }
    }
  }

  /** A reduction pass cut short has a reason on record, unless it was aborted before it began. */
  lemma {:induction false} StoppedIsNoted(env: Env, pieces: seq<Chunk>, depth: nat, outs: seq<string>, l: Ledger)
    requires depth <= env.budget.maxDepth
    ensures var (stopped, _, l') := ReducePieces(env, pieces, depth, outs, l);
            stopped ==> l'.stops != [] || l.raised
    decreases |pieces|
  {
    if pieces != [] {
      var (answer, asked) := AskModel(env, pieces[0].text, 0, depth, Reduce, l);
      AskExtends(env, pieces[0].text, 0, depth, Reduce, l);
      StoppedIsNoted(env, pieces[1..], depth, outs + [answer], asked);
    }
  }

  /**
    A query that reports no stop has sent every position of its payload to the sub-model, and its answer fits the
    leaf budget if the root was split. If the root was a leaf, the answer is whatever the one call returned.
   */
  lemma NoStopsMeansComplete(env: Env, payload: string)
    requires env.budget.Valid() && RecursiveQuery(env, payload).1.stops == []
    ensures forall p :: 0 <= p < |payload| ==> Covered(RecursiveQuery(env, payload).1.sent, payload, p)
    ensures !RecursiveQuery(env, payload).1.raised
    ensures var answer := RecursiveQuery(env, payload).0;
            if payload == "" then answer == ""
            else if IsLeaf(env.budget, payload, 0) then answer == env.model(0, payload)
            else EstimateTokens(answer) <= env.budget.maxChunkTokens
  {
    if payload != "" {
      SolveExtends(env, payload, 0, 0, EMPTY);
      assert payload[0..0 + |payload|] == payload;
      forall p | 0 <= p < |payload| ensures Covered(RecursiveQuery(env, payload).1.sent, payload, p) {
        SolveCovers(env, payload, payload, 0, 0, EMPTY, p);
      }
      if !IsLeaf(env.budget, payload, 0) {
        var pieces := Split(env.budget, payload);
        var (answers, solved) := SolvePieces(env, pieces, 0, 0, [], EMPTY.(chunks := |pieces|));
        ReduceFits(env, env.merge(answers, 0), 0, MAX_REDUCE_ROUNDS, solved);
      }
    }
  }

  // ---- Oversized answers ----

  /** The answer is over the leaf budget, and no stop says so. */
  ghost predicate SilentlyOversized(env: Env, payload: string)
    requires env.budget.Valid()
  {
    var (answer, l) := RecursiveQuery(env, payload);
    EstimateTokens(answer) > env.budget.maxChunkTokens && l.stops == []
  }

  /** A payload that fits one call the budget can pay for. */
  predicate FitsOneCall(budget: Budget, payload: string)
  {
    && payload != ""
    && |payload| <= budget.MaxChunkChars()
    && EstimateTokens(payload) <= budget.maxTotalTokens
  }

  /** Its answer is the model's, of whatever size, and is never reduced. */
  lemma OneCallIsNotReduced(env: Env, payload: string)
    requires env.budget.Valid() && FitsOneCall(env.budget, payload)
    ensures RecursiveQuery(env, payload).0 == env.model(0, payload) && RecursiveQuery(env, payload).1.stops == []
  {
  }

  lemma OversizedIsReported(env: Env, payload: string)
    requires env.budget.Valid() && !FitsOneCall(env.budget, payload)
    ensures !SilentlyOversized(env, payload)
  {
    if RecursiveQuery(env, payload).1.stops == [] {
      NoStopsMeansComplete(env, payload);
    }
  }

  /**
    Whatever the sub-model and the combiner do, an oversized answer comes with a stop: this promise of the source holds
    for a payload if and only if the payload does not fit one call that the budget can pay for.
   */
  lemma OversizedIsReportedIff(budget: Budget, payload: string)
    requires budget.Valid()
    ensures (forall env: Env | env.budget == budget :: !SilentlyOversized(env, payload))
       <==> !FitsOneCall(budget, payload)
  {
    if FitsOneCall(budget, payload) {
      var env := TalkativeModel(budget);
      OneCallIsNotReduced(env, payload);
      assert SilentlyOversized(env, payload);
    } else {
      forall env: Env | env.budget == budget ensures !SilentlyOversized(env, payload) {
        OversizedIsReported(env, payload);
      }
    }
  }

  function Xs(n: nat): string { seq(n, i => 'x') }

  /** A sub-model that always answers with more than a leaf. */
  function TalkativeModel(budget: Budget): Env
  {
    Env(budget, (n: nat, context: string) => Xs(budget.MaxChunkChars() + 1), (answers: seq<string>, depth: nat) => "")
  }

  /** The witness: a payload of one character, answered by five where a leaf holds four, without a stop. */
  lemma OversizedCanBeSilent()
    ensures SilentlyOversized(TalkativeModel(Budget(4, 1, 128, 500, 2, 0, false)), "a")
  {
    OneCallIsNotReduced(TalkativeModel(Budget(4, 1, 128, 500, 2, 0, false)), "a");
  }

  // ---- What blocks a call ----

  /** A call is let through exactly when making it keeps every bound; the call count is named before the tokens. */
  lemma BlockedIffCallBreaksABound(env: Env, l: Ledger, call: Call)
    requires WithinBudget(env, l) && call.depth <= env.budget.maxDepth
    requires |call.context| <= env.budget.MaxChunkChars()
    ensures BlockedBy(env, l, EstimateTokens(call.context)).None? <==> WithinBudget(env, Spend(l, call))
    ensures BlockedBy(env, l, EstimateTokens(call.context)) == Some(MaxCalls) <==> |l.sent| == env.budget.maxCalls
  {
    var l' := Spend(l, call);
    assert l'.sent[..|l.sent|] == l.sent;
  }
}
