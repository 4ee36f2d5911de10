/** What a query does, against what `plan_recursion` (src/symphony/rlm/recursive.py) says it will do. */
module PlanVerdicts {
  import opened Numbers
  import opened Chunker
  import opened Recursion
  import opened BoundaryFree
  import opened RecursionPlans

  // ---- The tree predicts the leaf calls ----

  /** Token sizes of the leaf calls, in order. */
  function LeafTokens(sent: seq<Call>): seq<nat>
  {
    if sent == [] then []
    else
      var earlier, last := LeafTokens(sent[..|sent| - 1]), sent[|sent| - 1];
      if last.kind == Leaf then earlier + [EstimateTokens(last.context)] else earlier
  }

  function TruncatedLeaves(sent: seq<Call>): nat
  {
    if sent == [] then 0
    else
      var last := sent[|sent| - 1];
      TruncatedLeaves(sent[..|sent| - 1]) + if last.kind == Leaf && last.dropped > 0 then 1 else 0
  }

  /** Leaves by their token sizes in order, how many were cut, and how deep it went. */
  datatype Leaves = Leaves(tokens: seq<nat>, truncated: nat, depth: nat)

  function Planned(p: Plan): Leaves { Leaves(p.leaves, p.truncatedLeaves, p.depthReached) }

  function Made(l: Ledger): Leaves { Leaves(LeafTokens(l.sent), TruncatedLeaves(l.sent), l.depthReached) }

  ghost predicate Predicts(p: Plan, l: Ledger)
  {
    Planned(p) == Made(l)
  }

  /** Neither the call nor the token bound has been hit, and nothing raised. */
  ghost predicate Unblocked(l: Ledger)
  {
    !l.raised && MaxCalls !in l.stops && MaxTotalTokens !in l.stops
  }

  lemma UnblockedBefore(env: Env, l: Ledger, l': Ledger)
    requires Extends(env, l, l') && Unblocked(l')
    ensures Unblocked(l)
  {
    assert forall r :: r in l.stops ==> r in l'.stops;
  }

  lemma LeafIsPredicted(env: Env, body: string, at: nat, depth: nat, l: Ledger, p: Plan)
    requires env.budget.Valid() && Predicts(p, l) && IsLeaf(env.budget, body, depth)
    requires Unblocked(Solve(env, body, at, depth, l).1)
    ensures Predicts(Tree(env.budget, body, depth, p), Solve(env, body, at, depth, l).1)
  {
    var l' := Solve(env, body, at, depth, l).1;
    assert l'.sent[..|l.sent|] == l.sent;
    assert |l'.sent| == |l.sent| + 1;
  }

  /** Reductions leave the leaves alone. */
  ghost predicate SameLeaves(l: Ledger, l': Ledger)
  {
    && l'.depthReached == l.depthReached
    && LeafTokens(l'.sent) == LeafTokens(l.sent)
    && TruncatedLeaves(l'.sent) == TruncatedLeaves(l.sent)
  }

  lemma AskKeepsLeaves(env: Env, body: string, at: nat, depth: nat, l: Ledger)
    requires depth <= l.depthReached
    ensures SameLeaves(l, AskModel(env, body, at, depth, Reduce, l).1)
  {
    var l' := AskModel(env, body, at, depth, Reduce, l).1;
    if l'.sent != l.sent {
      assert l'.sent[..|l.sent|] == l.sent;
    }
  }

  lemma {:induction false} ReducePiecesKeepLeaves(env: Env, pieces: seq<Chunk>, depth: nat, outs: seq<string>,
                                                  l: Ledger)
    requires depth <= l.depthReached
    ensures SameLeaves(l, ReducePieces(env, pieces, depth, outs, l).2)
    decreases |pieces|
  {
    if pieces != [] {
      var (answer, asked) := AskModel(env, pieces[0].text, 0, depth, Reduce, l);
      AskKeepsLeaves(env, pieces[0].text, 0, depth, l);
      ReducePiecesKeepLeaves(env, pieces[1..], depth, outs + [answer], asked);
    }
  }

  lemma {:induction false} ReduceKeepsLeaves(env: Env, body: string, depth: nat, rounds: nat, l: Ledger)
    requires env.budget.Valid() && depth <= l.depthReached
    ensures SameLeaves(l, ReduceToBudget(env, body, depth, rounds, l).1)
    decreases rounds
  {
    if EstimateTokens(body) > env.budget.maxChunkTokens && rounds > 0 {
      var pieces := ChunkText(body, env.budget.MaxChunkChars(), 0, Auto).value;
      var (stopped, outs, passed) := ReducePieces(env, pieces, depth, [], l);
      ReducePiecesKeepLeaves(env, pieces, depth, [], l);
      ReduceKeepsLeaves(env, env.merge(outs, depth), depth, rounds - 1, passed);
    }
  }

  lemma {:induction false} SolveIsPredicted(env: Env, body: string, at: nat, depth: nat, l: Ledger, p: Plan)
    requires env.budget.Valid() && depth <= env.budget.maxDepth && Predicts(p, l)
    requires Unblocked(Solve(env, body, at, depth, l).1)
    ensures Predicts(Tree(env.budget, body, depth, p), Solve(env, body, at, depth, l).1)
    decreases env.budget.maxDepth - depth, 0
  {
    if IsLeaf(env.budget, body, depth) {
      LeafIsPredicted(env, body, at, depth, l, p);
    } else {
      var pieces := Split(env.budget, body);
      var start := Begin(l, depth, |pieces|);
      var (answers, solved) := SolvePieces(env, pieces, at, depth, [], start);
      SolvePiecesExtends(env, pieces, at, depth, [], start);
      ReduceExtends(env, env.merge(answers, depth), depth, MAX_REDUCE_ROUNDS, solved);
      ReduceKeepsLeaves(env, env.merge(answers, depth), depth, MAX_REDUCE_ROUNDS, solved);
      UnblockedBefore(env, solved, Solve(env, body, at, depth, l).1);
      PiecesArePredicted(env, pieces, at, depth, [], start, Branch(Reach(p, depth)));
    }
  }

  lemma {:induction false} PiecesArePredicted(env: Env, pieces: seq<Chunk>, at: nat, depth: nat, answers: seq<string>,
                                              l: Ledger, p: Plan)
    requires env.budget.Valid() && depth < env.budget.maxDepth && Predicts(p, l)
    requires Unblocked(SolvePieces(env, pieces, at, depth, answers, l).1)
    ensures Predicts(TreePieces(env.budget, pieces, depth, p), SolvePieces(env, pieces, at, depth, answers, l).1)
    decreases env.budget.maxDepth - depth - 1, |pieces| + 2
  {
    if pieces != [] {
      var answer, solved := FirstIsPredicted(env, pieces, at, depth, answers, l, p);
      PiecesArePredicted(env, pieces[1..], at, depth, answers + [answer], solved,
                         Tree(env.budget, pieces[0].text, depth + 1, p));
    }
  }

  lemma {:induction false} FirstIsPredicted(env: Env, pieces: seq<Chunk>, at: nat, depth: nat, answers: seq<string>,
                                            l: Ledger, p: Plan)
    returns (answer: string, solved: Ledger)
    requires env.budget.Valid() && depth < env.budget.maxDepth && Predicts(p, l) && pieces != []
    requires Unblocked(SolvePieces(env, pieces, at, depth, answers, l).1)
    ensures Predicts(Tree(env.budget, pieces[0].text, depth + 1, p), solved)
    ensures SolvePieces(env, pieces, at, depth, answers, l)
         == SolvePieces(env, pieces[1..], at, depth, answers + [answer], solved)
    decreases env.budget.maxDepth - depth - 1, 1
  {
    answer, solved := FirstPieceUnblocked(env, pieces, at, depth, answers, l);
    SolveIsPredicted(env, pieces[0].text, at + pieces[0].start, depth + 1, l, p);
  }

  lemma FirstPieceUnblocked(env: Env, pieces: seq<Chunk>, at: nat, depth: nat, answers: seq<string>, l: Ledger)
    returns (answer: string, solved: Ledger)
    requires env.budget.Valid() && depth < env.budget.maxDepth && pieces != []
    requires Unblocked(SolvePieces(env, pieces, at, depth, answers, l).1)
    ensures (answer, solved) == Solve(env, pieces[0].text, at + pieces[0].start, depth + 1, l) && Unblocked(solved)
    ensures SolvePieces(env, pieces, at, depth, answers, l)
         == SolvePieces(env, pieces[1..], at, depth, answers + [answer], solved)
  {
    var head := Solve(env, pieces[0].text, at + pieces[0].start, depth + 1, l);
    answer, solved := head.0, head.1;
    SolvePiecesExtends(env, pieces, at, depth, answers, l);
    SolvePiecesExtends(env, pieces[1..], at, depth, answers + [answer], solved);
    if !solved.raised {
      UnblockedBefore(env, solved, SolvePieces(env, pieces[1..], at, depth, answers + [answer], solved).1);
    }
  }

  /**
    On any text, as long as neither the call nor the token bound is hit, the leaf calls made are the leaves of the tree:
    the same number with the same sizes in the same order, as deep, as many truncated.
   */
  lemma TreePredictsLeafCalls(env: Env, payload: string)
    requires env.budget.Valid() && Unblocked(RecursiveQuery(env, payload).1)
    ensures Predicts(TreeOf(env.budget, payload), RecursiveQuery(env, payload).1)
  {
    if payload != "" {
      SolveIsPredicted(env, payload, 0, 0, EMPTY, NOTHING);
    }
  }

  /** So on text without natural boundaries and with no overlap they are the leaves planned. */
  lemma PlanPredictsLeafCalls(env: Env, payload: string)
    requires env.budget.Valid() && env.budget.overlapTokens == 0 && NoBoundaries(payload)
    requires Unblocked(RecursiveQuery(env, payload).1)
    ensures Predicts(PlanOf(env.budget, payload), RecursiveQuery(env, payload).1)
  {
    PlanIsTree(env.budget, payload);
    TreePredictsLeafCalls(env, payload);
  }

  // ---- Runs whose merges fit ----

  /** No merge this run makes below `depth` is over the leaf budget, so nothing is reduced. */
  ghost predicate MergesFit(env: Env, body: string, at: nat, depth: nat, l: Ledger)
    requires env.budget.Valid()
    decreases Max(env.budget.maxDepth - depth, 0), 0
  {
    || IsLeaf(env.budget, body, depth)
    || (var pieces := Split(env.budget, body);
        var start := Begin(l, depth, |pieces|);
        var (answers, solved) := SolvePieces(env, pieces, at, depth, [], start);
        && PiecesMergesFit(env, pieces, at, depth, start)
        && (solved.raised || EstimateTokens(env.merge(answers, depth)) <= env.budget.maxChunkTokens))
  }

  ghost predicate PiecesMergesFit(env: Env, pieces: seq<Chunk>, at: nat, depth: nat, l: Ledger)
    requires env.budget.Valid() && depth < env.budget.maxDepth
    decreases env.budget.maxDepth - depth - 1, |pieces| + 1
  {
    || pieces == []
    || BlockedBy(env, l, 0).Some?
    || (var solved := Solve(env, pieces[0].text, at + pieces[0].start, depth + 1, l).1;
        && MergesFit(env, pieces[0].text, at + pieces[0].start, depth + 1, l)
        && (solved.raised || PiecesMergesFit(env, pieces[1..], at, depth, solved)))
  }

  ghost predicate QueryMergesFit(env: Env, payload: string)
    requires env.budget.Valid()
  {
    payload == "" || MergesFit(env, payload, 0, 0, EMPTY)
  }

  lemma {:induction false} SumOfPrefix(xs: seq<nat>, ys: seq<nat>)
    requires xs <= ys
    ensures Sum(xs) <= Sum(ys)
    decreases |ys|
  {
    if |xs| < |ys| {
      SumOfPrefix(xs, ys[..|ys| - 1]);
    } else {
      assert xs == ys;
    }
  }

  /** The leaves alone fit the call and token bounds. */
  ghost predicate Affordable(budget: Budget, p: Plan)
  {
    |p.leaves| <= budget.maxCalls && Sum(p.leaves) <= budget.maxTotalTokens
  }

  lemma AffordableBefore(budget: Budget, p: Plan, p': Plan)
    requires p.leaves <= p'.leaves && Affordable(budget, p')
    ensures Affordable(budget, p)
  {
    SumOfPrefix(p.leaves, p'.leaves);
  }

  lemma {:induction false} TreeGrows(budget: Budget, body: string, depth: nat, p: Plan)
    requires budget.Valid()
    ensures p.leaves < Tree(budget, body, depth, p).leaves
    ensures p.internalNodes <= Tree(budget, body, depth, p).internalNodes
    decreases Max(budget.maxDepth - depth, 0), 0
  {
    if !IsLeaf(budget, body, depth) {
      SplitTiles(budget, body);
      TreePiecesGrow(budget, Split(budget, body), depth, Branch(Reach(p, depth)));
    }
  }

  lemma {:induction false} TreePiecesGrow(budget: Budget, pieces: seq<Chunk>, depth: nat, p: Plan)
    requires budget.Valid() && depth < budget.maxDepth
    ensures p.leaves <= TreePieces(budget, pieces, depth, p).leaves
    ensures pieces != [] ==> p.leaves < TreePieces(budget, pieces, depth, p).leaves
    ensures p.internalNodes <= TreePieces(budget, pieces, depth, p).internalNodes
    decreases budget.maxDepth - depth - 1, |pieces| + 1
  {
    if pieces != [] {
      TreeGrows(budget, pieces[0].text, depth + 1, p);
      TreePiecesGrow(budget, pieces[1..], depth, Tree(budget, pieces[0].text, depth + 1, p));
    }
  }

  /** The ledger has paid for the leaves and nothing else; only truncation has been noted, if it happened. */
  ghost predicate PaidFor(p: Plan, l: Ledger)
  {
    && !l.raised
    && l.calls == |p.leaves| && l.tokens == Sum(p.leaves)
    && (forall r | r in l.stops :: r == MaxDepthTruncated)
    && (l.stops == [] <==> p.truncatedLeaves == 0)
  }

  lemma LeafIsPaid(env: Env, body: string, at: nat, depth: nat, l: Ledger, p: Plan)
    requires env.budget.Valid() && !env.budget.raises && PaidFor(p, l) && IsLeaf(env.budget, body, depth)
    requires Affordable(env.budget, Tree(env.budget, body, depth, p))
    ensures PaidFor(Tree(env.budget, body, depth, p), Solve(env, body, at, depth, l).1)
  {
    PlannedLeaf(env.budget, body, depth, p);
    CallIsPaid(env, body, at, depth, l.(depthReached := Max(l.depthReached, depth)), p);
  }

  lemma PlannedLeaf(budget: Budget, body: string, depth: nat, p: Plan)
    requires budget.Valid() && IsLeaf(budget, body, depth)
    ensures var p' := Tree(budget, body, depth, p);
            && p'.leaves == p.leaves + [SizeSent(budget, |body|)]
            && Sum(p'.leaves) == Sum(p.leaves) + SizeSent(budget, |body|)
            && p'.truncatedLeaves == p.truncatedLeaves + if |body| > budget.MaxChunkChars() then 1 else 0
  {
    var p' := Tree(budget, body, depth, p);
    assert p'.leaves[..|p.leaves|] == p.leaves;
  }

  lemma CallIsPaid(env: Env, body: string, at: nat, depth: nat, l: Ledger, p: Plan)
    requires !env.budget.raises && PaidFor(p, l)
    requires |p.leaves| < env.budget.maxCalls
    requires Sum(p.leaves) + SizeSent(env.budget, |body|) <= env.budget.maxTotalTokens
    ensures var l' := AskModel(env, body, at, depth, Leaf, l).1;
            && !l'.raised && l'.calls == l.calls + 1 && l'.tokens == l.tokens + SizeSent(env.budget, |body|)
            && (forall r | r in l'.stops :: r == MaxDepthTruncated)
            && (l'.stops == [] <==> l.stops == [] && |body| <= env.budget.MaxChunkChars())
  {
    var limit := env.budget.MaxChunkChars();
    if |body| > limit {
      assert |body[..limit]| == limit;
    }
  }

  lemma {:induction false} SolveIsPaid(env: Env, body: string, at: nat, depth: nat, l: Ledger, p: Plan)
    requires env.budget.Valid() && depth <= env.budget.maxDepth && !env.budget.raises && PaidFor(p, l)
    requires MergesFit(env, body, at, depth, l) && Affordable(env.budget, Tree(env.budget, body, depth, p))
    ensures PaidFor(Tree(env.budget, body, depth, p), Solve(env, body, at, depth, l).1)
    decreases env.budget.maxDepth - depth, 0
  {
    if IsLeaf(env.budget, body, depth) {
      LeafIsPaid(env, body, at, depth, l, p);
    } else {
      var pieces := Split(env.budget, body);
      var start := Begin(l, depth, |pieces|);
      PiecesArePaid(env, pieces, at, depth, [], start, Branch(Reach(p, depth)));
      BranchIsPaid(env, body, at, depth, l, TreePieces(env.budget, pieces, depth, Branch(Reach(p, depth))));
    }
  }

  /** With its pieces paid for and its merge fitting, a split body costs nothing more. */
  lemma BranchIsPaid(env: Env, body: string, at: nat, depth: nat, l: Ledger, p': Plan)
    requires env.budget.Valid() && !IsLeaf(env.budget, body, depth) && MergesFit(env, body, at, depth, l)
    requires var pieces := Split(env.budget, body);
             var start := Begin(l, depth, |pieces|);
             PaidFor(p', SolvePieces(env, pieces, at, depth, [], start).1)
    ensures PaidFor(p', Solve(env, body, at, depth, l).1)
  {
    var pieces := Split(env.budget, body);
    var start := Begin(l, depth, |pieces|);
    var (answers, solved) := SolvePieces(env, pieces, at, depth, [], start);
    FittingMergeIsKept(env, env.merge(answers, depth), depth, solved);
  }

  lemma FittingMergeIsKept(env: Env, body: string, depth: nat, l: Ledger)
    requires env.budget.Valid() && EstimateTokens(body) <= env.budget.maxChunkTokens
    ensures ReduceToBudget(env, body, depth, MAX_REDUCE_ROUNDS, l) == (body, l)
  {
  }

  lemma {:induction false} PiecesArePaid(env: Env, pieces: seq<Chunk>, at: nat, depth: nat, answers: seq<string>,
                                         l: Ledger, p: Plan)
    requires env.budget.Valid() && depth < env.budget.maxDepth && !env.budget.raises && PaidFor(p, l)
    requires PiecesMergesFit(env, pieces, at, depth, l)
    requires Affordable(env.budget, TreePieces(env.budget, pieces, depth, p))
    ensures PaidFor(TreePieces(env.budget, pieces, depth, p), SolvePieces(env, pieces, at, depth, answers, l).1)
    decreases env.budget.maxDepth - depth - 1, |pieces| + 2
  {
    if pieces != [] {
      var answer, solved := FirstIsPaid(env, pieces, at, depth, answers, l, p);
      PiecesArePaid(env, pieces[1..], at, depth, answers + [answer], solved,
                    Tree(env.budget, pieces[0].text, depth + 1, p));
    }
  }

  lemma {:induction false} FirstIsPaid(env: Env, pieces: seq<Chunk>, at: nat, depth: nat, answers: seq<string>,
                                       l: Ledger, p: Plan)
    returns (answer: string, solved: Ledger)
    requires env.budget.Valid() && depth < env.budget.maxDepth && !env.budget.raises && PaidFor(p, l) && pieces != []
    requires PiecesMergesFit(env, pieces, at, depth, l)
    requires Affordable(env.budget, TreePieces(env.budget, pieces, depth, p))
    ensures PaidFor(Tree(env.budget, pieces[0].text, depth + 1, p), solved)
    ensures PiecesMergesFit(env, pieces[1..], at, depth, solved)
    ensures SolvePieces(env, pieces, at, depth, answers, l)
         == SolvePieces(env, pieces[1..], at, depth, answers + [answer], solved)
    decreases env.budget.maxDepth - depth - 1, 1
  {
    var text, start := pieces[0].text, at + pieces[0].start;
    PieceIsAffordable(env.budget, pieces, depth, p);
    assert BlockedBy(env, l, 0).None?;
    SolveIsPaid(env, text, start, depth + 1, l, p);
    answer, solved := Solve(env, text, start, depth + 1, l).0, Solve(env, text, start, depth + 1, l).1;
    StepSolved(env, pieces, at, depth, answers, l, solved, answer);
  }

  lemma PieceIsAffordable(budget: Budget, pieces: seq<Chunk>, depth: nat, p: Plan)
    requires budget.Valid() && depth < budget.maxDepth && pieces != []
    requires Affordable(budget, TreePieces(budget, pieces, depth, p))
    ensures Affordable(budget, Tree(budget, pieces[0].text, depth + 1, p))
    ensures |p.leaves| < budget.maxCalls && Sum(p.leaves) <= budget.maxTotalTokens
  {
    var ahead := Tree(budget, pieces[0].text, depth + 1, p);
    TreePiecesGrow(budget, pieces[1..], depth, ahead);
    AffordableBefore(budget, ahead, TreePieces(budget, pieces, depth, p));
    TreeGrows(budget, pieces[0].text, depth + 1, p);
    SumOfPrefix(p.leaves, ahead.leaves);
  }

  lemma StepSolved(env: Env, pieces: seq<Chunk>, at: nat, depth: nat, answers: seq<string>, l: Ledger, solved: Ledger,
                   answer: string)
    requires env.budget.Valid() && depth < env.budget.maxDepth && pieces != []
    requires l.calls < env.budget.maxCalls && l.tokens <= env.budget.maxTotalTokens
    requires (answer, solved) == Solve(env, pieces[0].text, at + pieces[0].start, depth + 1, l) && !solved.raised
    ensures SolvePieces(env, pieces, at, depth, answers, l)
         == SolvePieces(env, pieces[1..], at, depth, answers + [answer], solved)
  {
  }

  lemma {:induction false} LeavesAreCalls(sent: seq<Call>)
    ensures |LeafTokens(sent)| <= |sent| && Sum(LeafTokens(sent)) <= TokensSent(sent)
    decreases |sent|
  {
    if sent != [] {
      var earlier := LeafTokens(sent[..|sent| - 1]);
      LeavesAreCalls(sent[..|sent| - 1]);
      assert forall n: nat :: (earlier + [n])[..|earlier|] == earlier;
    }
  }

  lemma UnblockedIsAffordable(env: Env, payload: string)
    requires env.budget.Valid() && Unblocked(RecursiveQuery(env, payload).1)
    ensures Affordable(env.budget, TreeOf(env.budget, payload))
  {
    var l := RecursiveQuery(env, payload).1;
    QueryStaysWithinBudget(env, payload);
    TreePredictsLeafCalls(env, payload);
    LeavesAreCalls(l.sent);
  }

  /**
    On any text, when no merge of the run is oversized, the tree decides in advance what the query will do. A bound is
    hit exactly when the leaves alone break it; the query is complete exactly when they fit and none is truncated; and
    if they fit, the query makes one call for each, charges their tokens, and reports truncation if there is any.
   */
  lemma TreeDecides(env: Env, payload: string)
    requires env.budget.Valid() && !env.budget.raises && QueryMergesFit(env, payload)
    ensures var p, l := TreeOf(env.budget, payload), RecursiveQuery(env, payload).1;
            && (Unblocked(l) <==> Affordable(env.budget, p))
            && (l.stops == [] <==> Affordable(env.budget, p) && p.truncatedLeaves == 0)
            && (Affordable(env.budget, p) ==>
                  && l.calls == |p.leaves| && l.tokens == Sum(p.leaves)
                  && (MaxDepthTruncated in l.stops <==> p.truncatedLeaves > 0))
  {
    var p, l := TreeOf(env.budget, payload), RecursiveQuery(env, payload).1;
    if payload != "" {
      SolveExtends(env, payload, 0, 0, EMPTY);
      if Unblocked(l) {
        UnblockedIsAffordable(env, payload);
      }
      if Affordable(env.budget, p) {
        SolveIsPaid(env, payload, 0, 0, EMPTY, NOTHING);
        PaidStops(p, l);
      }
    }
  }

  lemma PaidStops(p: Plan, l: Ledger)
    requires PaidFor(p, l)
    ensures Unblocked(l) && (MaxDepthTruncated in l.stops <==> p.truncatedLeaves > 0)
  {
    if l.stops != [] {
      assert l.stops[0] in l.stops;
    }
  }

  // ---- The source's verdict ----

  /**
    `fits_budget` against what happens, on text without natural boundaries, with no overlap and no oversized merge. It
    is sound: a query it passes is complete. It is not exact: it also fails queries that would be complete, and those
    are exactly the ones whose leaves fit but whose leaves and internal nodes together are more than `max_calls`.
   */
  lemma FitsBudgetIsSoundUpToInternalNodes(env: Env, payload: string)
    requires env.budget.Valid() && !env.budget.raises && env.budget.overlapTokens == 0 && NoBoundaries(payload)
    requires QueryMergesFit(env, payload)
    ensures var p, l := PlanOf(env.budget, payload), RecursiveQuery(env, payload).1;
            && (FitsBudget(env.budget, p) ==> l.stops == [])
            && (l.stops == [] && !FitsBudget(env.budget, p)
                <==> && p.truncatedLeaves == 0 && Sum(p.leaves) <= env.budget.maxTotalTokens
                     && |p.leaves| <= env.budget.maxCalls < UpperCalls(p))
  {
    PlanIsTree(env.budget, payload);
    TreeDecides(env, payload);
  }

  /**
    `would_stop_on` names every stop of such a query, up to which of the two bounds is hit first; and what it names
    happens, except that it names `max_calls` too early by the internal nodes.
   */
  lemma WouldStopOnNamesTheStops(env: Env, payload: string)
    requires env.budget.Valid() && !env.budget.raises && env.budget.overlapTokens == 0 && NoBoundaries(payload)
    requires QueryMergesFit(env, payload)
    ensures var p, l := PlanOf(env.budget, payload), RecursiveQuery(env, payload).1;
            var named := WouldStopOn(env.budget, p);
            && (named == [] <==> FitsBudget(env.budget, p))
            && (!Unblocked(l) ==> MaxCalls in named || MaxTotalTokens in named)
            && (MaxTotalTokens in named || |p.leaves| > env.budget.maxCalls ==> !Unblocked(l))
            && (Unblocked(l) ==> (MaxDepthTruncated in l.stops <==> MaxDepthTruncated in named))
  {
    PlanIsTree(env.budget, payload);
    TreeDecides(env, payload);
  }

  // ---- The upper bound on calls ----

  lemma {:induction false} SolveCallsLeavesOnly(env: Env, body: string, at: nat, depth: nat, l: Ledger, p: Plan)
    requires env.budget.Valid() && depth <= env.budget.maxDepth && MergesFit(env, body, at, depth, l)
    ensures Solve(env, body, at, depth, l).1.calls + |p.leaves| <= l.calls + |Tree(env.budget, body, depth, p).leaves|
    decreases env.budget.maxDepth - depth, 0
  {
    if !IsLeaf(env.budget, body, depth) {
      var pieces := Split(env.budget, body);
      var start := Begin(l, depth, |pieces|);
      var (answers, solved) := SolvePieces(env, pieces, at, depth, [], start);
      PiecesCallLeavesOnly(env, pieces, at, depth, [], start, Branch(Reach(p, depth)));
      if !solved.raised {
        FittingMergeIsKept(env, env.merge(answers, depth), depth, solved);
      }
    }
  }

  lemma {:induction false} PiecesCallLeavesOnly(env: Env, pieces: seq<Chunk>, at: nat, depth: nat, answers: seq<string>,
                                                l: Ledger, p: Plan)
    requires env.budget.Valid() && depth < env.budget.maxDepth && PiecesMergesFit(env, pieces, at, depth, l)
    ensures SolvePieces(env, pieces, at, depth, answers, l).1.calls + |p.leaves|
         <= l.calls + |TreePieces(env.budget, pieces, depth, p).leaves|
    decreases env.budget.maxDepth - depth - 1, |pieces| + 1
  {
    TreePiecesGrow(env.budget, pieces, depth, p);
    if pieces != [] && BlockedBy(env, l, 0).None? {
      var text, start := pieces[0].text, at + pieces[0].start;
      var (answer, solved) := Solve(env, text, start, depth + 1, l);
      var ahead := Tree(env.budget, text, depth + 1, p);
      SolveCallsLeavesOnly(env, text, start, depth + 1, l, p);
      TreePiecesGrow(env.budget, pieces[1..], depth, ahead);
      if !solved.raised {
        PiecesCallLeavesOnly(env, pieces[1..], at, depth, answers + [answer], solved, ahead);
      }
    }
  }

  /** When no merge of the run is oversized, the query makes at most one call for each leaf of the tree, on any text. */
  lemma CallsAreAtMostTheLeaves(env: Env, payload: string)
    requires env.budget.Valid() && QueryMergesFit(env, payload)
    ensures RecursiveQuery(env, payload).1.calls <= |TreeOf(env.budget, payload).leaves|
  {
    if payload != "" {
      SolveCallsLeavesOnly(env, payload, 0, 0, EMPTY, NOTHING);
    }
  }

  /**
    So then `max_calls_upper_bound` bounds the calls if the tree has no more leaves than the plan has leaves and
    internal nodes; and, where the tree's leaves are affordable, only if.
   */
  lemma UpperBoundHoldsWithoutReductionsIff(env: Env, payload: string)
    requires env.budget.Valid() && !env.budget.raises && QueryMergesFit(env, payload)
    requires Affordable(env.budget, TreeOf(env.budget, payload))
    ensures RecursiveQuery(env, payload).1.calls <= UpperCalls(PlanOf(env.budget, payload))
       <==> |TreeOf(env.budget, payload).leaves| <= UpperCalls(PlanOf(env.budget, payload))
  {
    TreeDecides(env, payload);
  }

  /** In particular it bounds them on text without natural boundaries, with no overlap. */
  lemma UpperBoundHoldsWithoutReductions(env: Env, payload: string)
    requires env.budget.Valid() && env.budget.overlapTokens == 0 && NoBoundaries(payload)
    requires QueryMergesFit(env, payload)
    ensures RecursiveQuery(env, payload).1.calls <= UpperCalls(PlanOf(env.budget, payload))
  {
    PlanIsTree(env.budget, payload);
    CallsAreAtMostTheLeaves(env, payload);
  }
}
