/** Where the answer of a query comes from (src/symphony/rlm/recursive.py). */
module RecursionAnswers {
  import opened Numbers
  import opened Chunker
  import opened Recursion

  // ---- A combiner that concatenates ----

  ghost predicate Concatenates(env: Env)
  {
    forall answers: seq<string>, depth: nat :: env.merge(answers, depth) == Concat(answers)
  }

  ghost predicate Unreduced(sent: seq<Call>) { forall i :: 0 <= i < |sent| ==> sent[i].kind == Leaf }

  /** What the sub-model answered to the calls from number `from` on, in the order they were made. */
  function Replies(env: Env, sent: seq<Call>, from: nat): string
    requires from <= |sent|
    decreases |sent|
  {
    if from == |sent| then ""
    else
      var last := |sent| - 1;
      Replies(env, sent[..last], from) + env.model(last, sent[last].context)
  }

  lemma {:induction false} RepliesSplit(env: Env, before: seq<Call>, sent: seq<Call>, from: nat)
    requires from <= |before| && before <= sent
    ensures Replies(env, sent, from) == Replies(env, before, from) + Replies(env, sent, |before|)
    decreases |sent|
  {
    if before == sent {
      assert Replies(env, sent, |before|) == "";
    } else {
      var last := |sent| - 1;
      assert before <= sent[..last];
      RepliesSplit(env, before, sent[..last], from);
    }
  }

  lemma AskReplies(env: Env, body: string, at: nat, depth: nat, kind: Kind, l: Ledger)
    requires l.calls == |l.sent|
    ensures var (answer, l') := AskModel(env, body, at, depth, kind, l);
            l.sent <= l'.sent && answer == Replies(env, l'.sent, |l.sent|)
  {
    var l' := AskModel(env, body, at, depth, kind, l).1;
    assert Replies(env, l.sent, |l.sent|) == "";
    if l'.sent != l.sent {
      assert l'.sent[..|l.sent|] == l.sent;
    }
  }

  /** The first piece of a reduction is either sent or stops the reduction. */
  lemma FirstPieceIsSentOrStops(env: Env, piece: Chunk, later: seq<Chunk>, depth: nat, l: Ledger)
    requires !l.raised && |piece.text| <= env.budget.MaxChunkChars() && depth <= env.budget.maxDepth
    requires Unreduced(ReducePieces(env, [piece] + later, depth, [], l).2.sent)
    ensures var (stopped, _, passed) := ReducePieces(env, [piece] + later, depth, [], l);
            stopped && passed.sent == l.sent
  {
    var pieces := [piece] + later;
    assert pieces[0] == piece && pieces[1..] == later;
    if BlockedBy(env, l, EstimateTokens(piece.text)).None? {
      var (answer, asked) := AskModel(env, piece.text, 0, depth, Reduce, l);
      assert asked.sent[|l.sent|].kind == Reduce && !asked.raised;
      ReducePiecesExtends(env, later, depth, [] + [answer], asked);
      assert false;
    }
  }

  /** A reduction that made no call left its text alone. */
  lemma ReductionIsIdle(env: Env, body: string, depth: nat, rounds: nat, l: Ledger)
    requires env.budget.Valid() && depth <= env.budget.maxDepth && rounds > 0 && !l.raised
    requires Unreduced(ReduceToBudget(env, body, depth, rounds, l).1.sent)
    ensures var (answer, l') := ReduceToBudget(env, body, depth, rounds, l); answer == body && l'.sent == l.sent
  {
    if EstimateTokens(body) > env.budget.maxChunkTokens {
      var pieces := ChunkText(body, env.budget.MaxChunkChars(), 0, Auto).value;
      ChunkTextTiles(body, env.budget.MaxChunkChars(), 0, Auto);
      assert pieces != [] && ChunkFits(pieces, 0, body, env.budget.MaxChunkChars(), 0);
      assert pieces == [pieces[0]] + pieces[1..];
      var pass := ReducePieces(env, pieces, depth, [], l);
      ReduceIsPassAndAfter(env, body, depth, rounds, l);
      AfterPassExtends(env, body, depth, rounds - 1, pass);
      FirstPieceIsSentOrStops(env, pieces[0], pieces[1..], depth, l);
    }
  }

  lemma AfterPassExtends(env: Env, body: string, depth: nat, rounds: nat, pass: (bool, seq<string>, Ledger))
    requires env.budget.Valid() && depth <= env.budget.maxDepth
    ensures pass.2.sent <= AfterPass(env, body, depth, rounds, pass).1.sent
  {
    ReduceExtends(env, env.merge(pass.1, depth), depth, rounds, pass.2);
  }

  /** Nothing was raised and no merge reduced. */
  ghost predicate Plain(l: Ledger) { !l.raised && Unreduced(l.sent) }

  /** The answer is what was answered to the calls made since `l`. */
  ghost predicate Replied(env: Env, l: Ledger, made: (string, Ledger))
  {
    l.sent <= made.1.sent && made.0 == Replies(env, made.1.sent, |l.sent|)
  }

  ghost predicate AllReplied(env: Env, answers: seq<string>, l: Ledger, made: (seq<string>, Ledger))
  {
    l.sent <= made.1.sent && Concat(made.0) == Concat(answers) + Replies(env, made.1.sent, |l.sent|)
  }

  lemma {:induction false} SolveReplies(
    env: Env, body: string, at: nat, depth: nat, l: Ledger, made: (string, Ledger))
    requires env.budget.Valid() && Concatenates(env) && depth <= env.budget.maxDepth && WithinBudget(env, l)
    requires !l.raised && made == Solve(env, body, at, depth, l) && Plain(made.1)
    ensures Replied(env, l, made)
    decreases env.budget.maxDepth - depth, 0
  {
    if IsLeaf(env.budget, body, depth) {
      AskReplies(env, body, at, depth, Leaf, l.(depthReached := Max(l.depthReached, depth)));
    } else {
      var pieces := Split(env.budget, body);
      var start := Begin(l, depth, |pieces|);
      var (answers, solved) := SolvePieces(env, pieces, at, depth, [], start);
      var merged := env.merge(answers, depth);
      ReduceExtends(env, merged, depth, MAX_REDUCE_ROUNDS, solved);
      ReductionIsIdle(env, merged, depth, MAX_REDUCE_ROUNDS, solved);
      SolvePiecesReply(env, pieces, at, depth, [], start, (answers, solved));
    }
  }

  lemma UnreducedPrefix(a: seq<Call>, b: seq<Call>)
    requires a <= b && Unreduced(b)
    ensures Unreduced(a)
  {
    assert forall i :: 0 <= i < |a| ==> a[i] == b[i];
  }

  lemma RepliesChain(env: Env, answers: seq<string>, l: Ledger, head: (string, Ledger), made: (seq<string>, Ledger))
    requires Replied(env, l, head) && AllReplied(env, answers + [head.0], head.1, made)
    ensures AllReplied(env, answers, l, made)
  {
    ConcatOneMore(answers, head.0);
    RepliesSplit(env, head.1.sent, made.1.sent, |l.sent|);
    Regroup(Concat(answers), head.0, Replies(env, made.1.sent, |head.1.sent|));
  }

  lemma ConcatOneMore(answers: seq<string>, answer: string)
    ensures Concat(answers + [answer]) == Concat(answers) + answer
  {
    ConcatAppend(answers, [answer]);
    assert Concat([answer]) == answer + Concat([]);
  }

  lemma Regroup(a: string, b: string, c: string)
    ensures (a + b) + c == a + (b + c)
  {
  }

  lemma OnePieceReplied(env: Env, answers: seq<string>, l: Ledger, solved: Ledger, rest: (seq<string>, Ledger),
                        whole: (seq<string>, Ledger))
    requires WithinBudget(env, l) && Extends(env, l, solved) && Extends(env, solved, rest.1)
    requires whole == (if solved.raised then (answers, solved) else rest) && Plain(whole.1)
    ensures Plain(solved) && whole == rest && WithinBudget(env, solved)
  {
    UnreducedPrefix(solved.sent, whole.1.sent);
  }

  /** The loop of `solve`, one unblocked piece on. */
  lemma PieceThenRest(env: Env, pieces: seq<Chunk>, at: nat, depth: nat, answers: seq<string>, l: Ledger)
    returns (head: (string, Ledger), rest: (seq<string>, Ledger))
    requires env.budget.Valid() && depth < env.budget.maxDepth && pieces != [] && BlockedBy(env, l, 0).None?
    ensures head == Solve(env, pieces[0].text, at + pieces[0].start, depth + 1, l)
    ensures rest == SolvePieces(env, pieces[1..], at, depth, answers + [head.0], head.1)
    ensures SolvePieces(env, pieces, at, depth, answers, l) == if head.1.raised then (answers, head.1) else rest
    ensures Extends(env, l, head.1) && Extends(env, head.1, rest.1)
  {
    head := Solve(env, pieces[0].text, at + pieces[0].start, depth + 1, l);
    rest := SolvePieces(env, pieces[1..], at, depth, answers + [head.0], head.1);
    SolveExtends(env, pieces[0].text, at + pieces[0].start, depth + 1, l);
    SolvePiecesExtends(env, pieces[1..], at, depth, answers + [head.0], head.1);
  }

  lemma PieceReplied(env: Env, pieces: seq<Chunk>, at: nat, depth: nat, answers: seq<string>, l: Ledger,
                     whole: (seq<string>, Ledger))
    returns (head: (string, Ledger))
    requires env.budget.Valid() && depth < env.budget.maxDepth && pieces != [] && BlockedBy(env, l, 0).None?
    requires WithinBudget(env, l) && whole == SolvePieces(env, pieces, at, depth, answers, l) && Plain(whole.1)
    ensures head == Solve(env, pieces[0].text, at + pieces[0].start, depth + 1, l)
    ensures Plain(head.1) && WithinBudget(env, head.1)
    ensures whole == SolvePieces(env, pieces[1..], at, depth, answers + [head.0], head.1)
  {
    var rest;
    head, rest := PieceThenRest(env, pieces, at, depth, answers, l);
    OnePieceReplied(env, answers, l, head.1, rest, whole);
  }

  lemma NoneAsked(env: Env, answers: seq<string>, l: Ledger, l': Ledger)
    requires l'.sent == l.sent
    ensures AllReplied(env, answers, l, (answers, l'))
  {
    assert Replies(env, l.sent, |l.sent|) == "";
  }

  lemma {:induction false} SolvePiecesReply(
    env: Env, pieces: seq<Chunk>, at: nat, depth: nat, answers: seq<string>, l: Ledger, whole: (seq<string>, Ledger))
    requires env.budget.Valid() && Concatenates(env) && depth < env.budget.maxDepth && WithinBudget(env, l)
    requires !l.raised && whole == SolvePieces(env, pieces, at, depth, answers, l) && Plain(whole.1)
    ensures AllReplied(env, answers, l, whole)
    decreases env.budget.maxDepth - depth - 1, |pieces| + 1
  {
    if pieces != [] && BlockedBy(env, l, 0).None? {
      var head := PieceReplied(env, pieces, at, depth, answers, l, whole);
      SolveReplies(env, pieces[0].text, at + pieces[0].start, depth + 1, l, head);
      SolvePiecesReply(env, pieces[1..], at, depth, answers + [head.0], head.1, whole);
      RepliesChain(env, answers, l, head, whole);
    } else {
      NoneAsked(env, answers, l, whole.1);
    }
  }

  /**
    With a combiner that concatenates, and unless a merge had to be reduced, the answer is all that the sub-model
    answered, in the order it was asked: the answer of no call is lost, repeated or moved, even if the query stopped.
   */
  lemma AnswerIsAllReplies(env: Env, payload: string)
    requires env.budget.Valid() && Concatenates(env)
    requires var l := RecursiveQuery(env, payload).1; !l.raised && Unreduced(l.sent)
    ensures var (answer, l) := RecursiveQuery(env, payload); answer == Replies(env, l.sent, 0)
  {
    if payload != "" {
      SolveReplies(env, payload, 0, 0, EMPTY, RecursiveQuery(env, payload));
    }
  }

  // ---- Any combiner ----

  /** The same recursion with nothing to stop it: no ledger, no cuts. `asked` holds the contexts sent so far. */
  function Asked(env: Env, context: string, asked: seq<string>): (string, seq<string>)
  {
    (env.model(|asked|, context), asked + [context])
  }

  function AskedAll(env: Env, pieces: seq<Chunk>, asked: seq<string>): (seq<string>, seq<string>)
  {
    if pieces == [] then ([], asked)
    else
      var (reply, now) := Asked(env, pieces[0].text, asked);
      var (replies, done) := AskedAll(env, pieces[1..], now);
      ([reply] + replies, done)
  }

  /** Ask about a text piece by piece, and about the combined replies again, until what is left fits a call. */
  function Condensed(env: Env, text: string, depth: nat, asked: seq<string>): (string, seq<string>)
    requires env.budget.Valid()
    decreases |text|
  {
    if |text| <= env.budget.MaxChunkChars() then (text, asked)
    else
      var (replies, done) := AskedAll(env, ChunkText(text, env.budget.MaxChunkChars(), 0, Auto).value, asked);
      var combined := env.merge(replies, depth);
      if |combined| < |text| then Condensed(env, combined, depth, done) else (combined, done)
  }

  function Answered(env: Env, body: string, depth: nat, asked: seq<string>): (string, seq<string>)
    requires env.budget.Valid()
    decreases Max(env.budget.maxDepth - depth, 0), 0
  {
    if |body| <= env.budget.MaxChunkChars() || depth >= env.budget.maxDepth then Asked(env, body, asked)
    else
      var (replies, done) := AnsweredAll(env, Split(env.budget, body), depth, asked);
      Condensed(env, env.merge(replies, depth), depth, done)
  }

  function AnsweredAll(env: Env, pieces: seq<Chunk>, depth: nat, asked: seq<string>): (seq<string>, seq<string>)
    requires env.budget.Valid() && depth < env.budget.maxDepth
    decreases env.budget.maxDepth - depth - 1, |pieces| + 1
  {
    if pieces == [] then ([], asked)
    else
      var (reply, now) := Answered(env, pieces[0].text, depth + 1, asked);
      var (replies, done) := AnsweredAll(env, pieces[1..], depth, now);
      ([reply] + replies, done)
  }

  function Contexts(sent: seq<Call>): (contexts: seq<string>)
    ensures |contexts| == |sent| && forall i :: 0 <= i < |sent| ==> contexts[i] == sent[i].context
  {
    seq(|sent|, i requires 0 <= i < |sent| => sent[i].context)
  }

  /** Nothing has stopped the query. */
  ghost predicate Silent(env: Env, l: Ledger) { WithinBudget(env, l) && l.stops == [] && !l.raised }

  lemma ExtendsSilent(env: Env, l: Ledger, l': Ledger)
    requires Extends(env, l, l') && WithinBudget(env, l) && !l.raised && l'.stops == []
    ensures Silent(env, l) && Silent(env, l')
  {
  }

  lemma AskIsAsked(env: Env, body: string, at: nat, depth: nat, kind: Kind, l: Ledger)
    requires Silent(env, l) && AskModel(env, body, at, depth, kind, l).1.stops == []
    ensures var (answer, l') := AskModel(env, body, at, depth, kind, l);
            (answer, Contexts(l'.sent)) == Asked(env, body, Contexts(l.sent))
  {
    var l' := AskModel(env, body, at, depth, kind, l).1;
    assert Contexts(l'.sent) == Contexts(l.sent) + [body];
  }

  lemma {:induction false} PassIsAskedAll(env: Env, pieces: seq<Chunk>, depth: nat, outs: seq<string>, l: Ledger)
    requires depth <= env.budget.maxDepth && Silent(env, l) && ReducePieces(env, pieces, depth, outs, l).2.stops == []
    ensures var (stopped, all, l') := ReducePieces(env, pieces, depth, outs, l);
            var (replies, done) := AskedAll(env, pieces, Contexts(l.sent));
            !stopped && all == outs + replies && Contexts(l'.sent) == done && Silent(env, l')
    decreases |pieces|
  {
    if pieces != [] {
      var (answer, asked) := AskModel(env, pieces[0].text, 0, depth, Reduce, l);
      AskExtends(env, pieces[0].text, 0, depth, Reduce, l);
      ReducePiecesExtends(env, pieces[1..], depth, outs + [answer], asked);
      AskIsAsked(env, pieces[0].text, 0, depth, Reduce, l);
      PassIsAskedAll(env, pieces[1..], depth, outs + [answer], asked);
    }
  }

  /** The answer, and the contexts sent by then, are those of the recursion without a budget. */
  ghost predicate Told(made: (string, Ledger), told: (string, seq<string>))
  {
    made.0 == told.0 && Contexts(made.1.sent) == told.1
  }

  lemma {:induction false} ReduceIsCondensed(
    env: Env, body: string, depth: nat, rounds: nat, l: Ledger, made: (string, Ledger))
    requires env.budget.Valid() && depth <= env.budget.maxDepth && Silent(env, l)
    requires made == ReduceToBudget(env, body, depth, rounds, l) && made.1.stops == []
    ensures Told(made, Condensed(env, body, depth, Contexts(l.sent)))
    decreases rounds
  {
    if EstimateTokens(body) > env.budget.maxChunkTokens && rounds > 0 {
      var outs, passed := OnePassSilent(env, body, depth, rounds, l);
      ReduceIsCondensed(env, env.merge(outs, depth), depth, rounds - 1, passed, made);
      CondensedStep(env, body, depth, Contexts(l.sent), outs, Contexts(passed.sent));
    } else {
      NothingToReduce(env, body, depth, rounds, l);
    }
  }

  lemma NothingToReduce(env: Env, body: string, depth: nat, rounds: nat, l: Ledger)
    requires env.budget.Valid() && (EstimateTokens(body) <= env.budget.maxChunkTokens || rounds == 0)
    requires ReduceToBudget(env, body, depth, rounds, l).1.stops == []
    ensures ReduceToBudget(env, body, depth, rounds, l) == (body, l)
    ensures forall asked :: Condensed(env, body, depth, asked) == (body, asked)
  {
  }

  lemma OnePassSilent(env: Env, body: string, depth: nat, rounds: nat, l: Ledger)
    returns (outs: seq<string>, passed: Ledger)
    requires env.budget.Valid() && depth <= env.budget.maxDepth
    requires EstimateTokens(body) > env.budget.maxChunkTokens && rounds > 0
    requires Silent(env, l) && ReduceToBudget(env, body, depth, rounds, l).1.stops == []
    ensures Silent(env, passed) && 0 < |env.merge(outs, depth)| < |body|
    ensures (outs, Contexts(passed.sent))
         == AskedAll(env, ChunkText(body, env.budget.MaxChunkChars(), 0, Auto).value, Contexts(l.sent))
    ensures ReduceToBudget(env, body, depth, rounds, l)
         == ReduceToBudget(env, env.merge(outs, depth), depth, rounds - 1, passed)
  {
    var pieces := ChunkText(body, env.budget.MaxChunkChars(), 0, Auto).value;
    var pass := ReducePieces(env, pieces, depth, [], l);
    outs, passed := pass.1, pass.2;
    ReduceIsPassAndAfter(env, body, depth, rounds, l);
    AfterPassWasSilent(env, body, depth, rounds - 1, pass.0, outs, passed);
    PassIsAskedAll(env, pieces, depth, [], l);
    var replies := AskedAll(env, pieces, Contexts(l.sent)).0;
    assert [] + replies == replies;
  }

  lemma CondensedStep(env: Env, text: string, depth: nat, asked: seq<string>, replies: seq<string>, done: seq<string>)
    requires env.budget.Valid() && |text| > env.budget.MaxChunkChars() && |env.merge(replies, depth)| < |text|
    requires (replies, done) == AskedAll(env, ChunkText(text, env.budget.MaxChunkChars(), 0, Auto).value, asked)
    ensures Condensed(env, text, depth, asked) == Condensed(env, env.merge(replies, depth), depth, done)
  {
  }

  lemma AfterPassWasSilent(
    env: Env, body: string, depth: nat, rounds: nat, stopped: bool, outs: seq<string>, passed: Ledger)
    requires env.budget.Valid() && depth <= env.budget.maxDepth
    requires AfterPass(env, body, depth, rounds, (stopped, outs, passed)).1.stops == []
    ensures passed.stops == []
    ensures !stopped ==>
              var candidate := env.merge(outs, depth);
              && 0 < |candidate| < |body|
              && AfterPass(env, body, depth, rounds, (stopped, outs, passed))
                 == ReduceToBudget(env, candidate, depth, rounds, passed)
  {
    ReduceExtends(env, env.merge(outs, depth), depth, rounds, passed);
  }

  lemma {:induction false} SolveIsAnswered(env: Env, body: string, at: nat, depth: nat, l: Ledger)
    requires env.budget.Valid() && depth <= env.budget.maxDepth
    requires Silent(env, l) && Solve(env, body, at, depth, l).1.stops == []
    ensures Told(Solve(env, body, at, depth, l), Answered(env, body, depth, Contexts(l.sent)))
    decreases env.budget.maxDepth - depth, 0
  {
    if IsLeaf(env.budget, body, depth) {
      AskIsAsked(env, body, at, depth, Leaf, l.(depthReached := Max(l.depthReached, depth)));
    } else {
      var pieces := Split(env.budget, body);
      var start := Begin(l, depth, |pieces|);
      var (answers, solved) := SolvePieces(env, pieces, at, depth, [], start);
      SplitWasSilent(env, body, at, depth, l, pieces, start, answers, solved);
      SolvePiecesAreAnswered(env, pieces, at, depth, [], start);
      var replies := AnsweredAll(env, pieces, depth, Contexts(l.sent)).0;
      assert [] + replies == replies;
      var made := Solve(env, body, at, depth, l);
      ReduceIsCondensed(env, env.merge(answers, depth), depth, MAX_REDUCE_ROUNDS, solved, made);
      AnsweredSplit(env, body, depth, Contexts(l.sent), answers, Contexts(solved.sent));
    }
  }

  lemma SplitWasSilent(env: Env, body: string, at: nat, depth: nat, l: Ledger, pieces: seq<Chunk>, start: Ledger,
                       answers: seq<string>, solved: Ledger)
    requires env.budget.Valid() && !IsLeaf(env.budget, body, depth)
    requires pieces == Split(env.budget, body) && start == Begin(l, depth, |pieces|)
    requires (answers, solved) == SolvePieces(env, pieces, at, depth, [], start)
    requires Silent(env, l) && Solve(env, body, at, depth, l).1.stops == []
    ensures Silent(env, start) && Silent(env, solved) && start.sent == l.sent
    ensures Solve(env, body, at, depth, l)
         == ReduceToBudget(env, env.merge(answers, depth), depth, MAX_REDUCE_ROUNDS, solved)
  {
    SolvePiecesExtends(env, pieces, at, depth, [], start);
    ReduceExtends(env, env.merge(answers, depth), depth, MAX_REDUCE_ROUNDS, solved);
    ExtendsSilent(env, start, solved);
  }

  lemma AnsweredSplit(env: Env, body: string, depth: nat, asked: seq<string>, replies: seq<string>, done: seq<string>)
    requires env.budget.Valid() && !IsLeaf(env.budget, body, depth)
    requires (replies, done) == AnsweredAll(env, Split(env.budget, body), depth, asked)
    ensures Answered(env, body, depth, asked) == Condensed(env, env.merge(replies, depth), depth, done)
  {
  }

  lemma {:induction false} SolvePiecesAreAnswered(
    env: Env, pieces: seq<Chunk>, at: nat, depth: nat, answers: seq<string>, l: Ledger)
    requires env.budget.Valid() && depth < env.budget.maxDepth
    requires Silent(env, l) && SolvePieces(env, pieces, at, depth, answers, l).1.stops == []
    ensures SameReplies(SolvePieces(env, pieces, at, depth, answers, l), answers,
                        AnsweredAll(env, pieces, depth, Contexts(l.sent)))
    decreases env.budget.maxDepth - depth - 1, |pieces| + 1
  {
    if pieces == [] {
      NoPieces(env, at, depth, answers, l);
    } else {
      var answer, solved := OnePieceSilent(env, pieces, at, depth, answers, l);
      SolveIsAnswered(env, pieces[0].text, at + pieces[0].start, depth + 1, l);
      SolvePiecesAreAnswered(env, pieces[1..], at, depth, answers + [answer], solved);
      AnsweredOneMore(env, pieces, depth, Contexts(l.sent), answer, Contexts(solved.sent));
      OneMoreReply(SolvePieces(env, pieces, at, depth, answers, l), answers, answer,
                   AnsweredAll(env, pieces[1..], depth, Contexts(solved.sent)));
    }
  }

  lemma NoPieces(env: Env, at: nat, depth: nat, answers: seq<string>, l: Ledger)
    requires env.budget.Valid() && depth < env.budget.maxDepth
    ensures SameReplies(SolvePieces(env, [], at, depth, answers, l), answers,
                        AnsweredAll(env, [], depth, Contexts(l.sent)))
  {
  }

  /** The answers gathered and the contexts sent are those of the recursion without a budget. */
  ghost predicate SameReplies(solved: (seq<string>, Ledger), answers: seq<string>, told: (seq<string>, seq<string>))
  {
    solved.0 == answers + told.0 && Contexts(solved.1.sent) == told.1
  }

  lemma OneMoreReply(
    solved: (seq<string>, Ledger), answers: seq<string>, answer: string, told: (seq<string>, seq<string>))
    requires SameReplies(solved, answers + [answer], told)
    ensures SameReplies(solved, answers, ([answer] + told.0, told.1))
  {
    assert (answers + [answer]) + told.0 == answers + ([answer] + told.0);
  }

  lemma OnePieceSilent(env: Env, pieces: seq<Chunk>, at: nat, depth: nat, answers: seq<string>, l: Ledger)
    returns (answer: string, solved: Ledger)
    requires env.budget.Valid() && depth < env.budget.maxDepth && pieces != []
    requires Silent(env, l) && SolvePieces(env, pieces, at, depth, answers, l).1.stops == []
    ensures (answer, solved) == Solve(env, pieces[0].text, at + pieces[0].start, depth + 1, l) && Silent(env, solved)
    ensures SolvePieces(env, pieces, at, depth, answers, l)
         == SolvePieces(env, pieces[1..], at, depth, answers + [answer], solved)
  {
    var head := Solve(env, pieces[0].text, at + pieces[0].start, depth + 1, l);
    answer, solved := head.0, head.1;
    SolveExtends(env, pieces[0].text, at + pieces[0].start, depth + 1, l);
    FirstPieceSolved(env, pieces, at, depth, answers, l);
    ExtendsSilent(env, l, solved);
  }

  lemma AnsweredOneMore(
    env: Env, pieces: seq<Chunk>, depth: nat, asked: seq<string>, reply: string, now: seq<string>)
    requires env.budget.Valid() && depth < env.budget.maxDepth && pieces != []
    requires (reply, now) == Answered(env, pieces[0].text, depth + 1, asked)
    ensures AnsweredAll(env, pieces, depth, asked)
         == ([reply] + AnsweredAll(env, pieces[1..], depth, now).0, AnsweredAll(env, pieces[1..], depth, now).1)
  {
  }

  /**
    Without a stop, for any combiner: the answer and the contexts sent, in their order, are those of the recursion that
    knows no budget. Each call's answer goes, in its place, into exactly one merge, and each merge into the next.
   */
  lemma SilentQueryIsUnbudgeted(env: Env, payload: string)
    requires env.budget.Valid() && payload != "" && RecursiveQuery(env, payload).1.stops == []
    ensures var (answer, l) := RecursiveQuery(env, payload);
            (answer, Contexts(l.sent)) == Answered(env, payload, 0, [])
  {
    assert Contexts([]) == [];
    SolveIsAnswered(env, payload, 0, 0, EMPTY);
  }

  // ---- A reduction that is cut short ----

  /** One reply to each piece of a text, combined. */
  ghost predicate Combines(env: Env, depth: nat, text: string, combined: string)
    requires env.budget.Valid()
  {
    exists replies: seq<string> ::
      && |replies| == |ChunkText(text, env.budget.MaxChunkChars(), 0, Auto).value|
      && combined == env.merge(replies, depth)
  }

  /** A text and what it was reduced to, pass by pass. */
  ghost predicate Reduction(env: Env, depth: nat, texts: seq<string>)
    requires env.budget.Valid()
  {
    && texts != []
    && (forall i :: 0 < i < |texts| ==> texts[i] != "" && Combines(env, depth, texts[i - 1], texts[i]))
    && (forall i :: 0 < i < |texts| - 1 ==> |texts[i]| < |texts[i - 1]|)
  }

  lemma OneMoreReduction(env: Env, depth: nat, body: string, texts: seq<string>)
    requires env.budget.Valid() && Reduction(env, depth, texts)
    requires Combines(env, depth, body, texts[0]) && texts[0] != ""
    requires |texts[0]| < |body| || |texts| == 1
    ensures Reduction(env, depth, [body] + texts)
  {
  }

  lemma {:induction false} WholePassRepliesToAll(env: Env, pieces: seq<Chunk>, depth: nat, outs: seq<string>, l: Ledger)
    ensures var (stopped, all, _) := ReducePieces(env, pieces, depth, outs, l);
            !stopped ==> |all| == |outs| + |pieces|
    decreases |pieces|
  {
    if pieces != [] {
      var (answer, asked) := AskModel(env, pieces[0].text, 0, depth, Reduce, l);
      WholePassRepliesToAll(env, pieces[1..], depth, outs + [answer], asked);
    }
  }

  /**
    A reduction answers with its text, or with what one of at most three passes combined from the replies to all its
    pieces: a pass that cannot be paid for leaves its text unchanged. Each pass shrinks it; only the last may fail to,
    which is reported. An answer is never empty unless the text was.
   */
  lemma {:induction false} ReductionNeverLoses(env: Env, body: string, depth: nat, rounds: nat, l: Ledger)
    returns (texts: seq<string>)
    requires env.budget.Valid() && depth <= env.budget.maxDepth
    ensures |texts| <= rounds + 1 && ReducesTo(env, depth, body, texts, ReduceToBudget(env, body, depth, rounds, l))
    decreases rounds, 0
  {
    texts := [body];
    if EstimateTokens(body) > env.budget.maxChunkTokens && rounds > 0 {
      var pieces := ChunkText(body, env.budget.MaxChunkChars(), 0, Auto).value;
      var pass := ReducePieces(env, pieces, depth, [], l);
      ReduceIsPassAndAfter(env, body, depth, rounds, l);
      WholePassRepliesToAll(env, pieces, depth, [], l);
      texts := AfterPassNeverLoses(env, body, depth, rounds - 1, pass);
    }
  }

  ghost predicate ReducesTo(env: Env, depth: nat, body: string, texts: seq<string>, result: (string, Ledger))
    requires env.budget.Valid()
  {
    && Reduction(env, depth, texts) && texts[0] == body && texts[|texts| - 1] == result.0
    && (|texts| > 1 && |result.0| >= |texts[|texts| - 2]| ==> ReduceNotConverging in result.1.stops)
  }

  lemma {:induction false} AfterPassNeverLoses(
    env: Env, body: string, depth: nat, rounds: nat, pass: (bool, seq<string>, Ledger)) returns (texts: seq<string>)
    requires env.budget.Valid() && depth <= env.budget.maxDepth
    requires !pass.0 ==> |pass.1| == |ChunkText(body, env.budget.MaxChunkChars(), 0, Auto).value|
    ensures |texts| <= rounds + 2 && ReducesTo(env, depth, body, texts, AfterPass(env, body, depth, rounds, pass))
    decreases rounds, 1
  {
    var candidate := env.merge(pass.1, depth);
    texts := [body];
    if !pass.0 && candidate != "" {
      assert Combines(env, depth, body, candidate);
      var later := [candidate];
      if |candidate| < |body| {
        later := ReductionNeverLoses(env, candidate, depth, rounds, pass.2);
      }
      OneMoreReduction(env, depth, body, later);
      texts := [body] + later;
    }
  }
}
